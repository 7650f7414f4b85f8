/**
 * The ways the analyzers read the model's reply: a list of labels separated by
 * ", " (genres, moods), a number read by parseInt (tempo) and a trimmed string
 * (key, time signature).
 */
module ToolParsers {
  import opened Wrappers
  import opened JsString
  import JsNumber

  const LabelSeparator := ", "

  /** content.split(", ").map(x => x.trim()): one trimmed label per piece between
      separators, in order; an empty reply still has one (empty) piece. */
  function ParseLabels(content: string): (labels: seq<string>)
    ensures |labels| == CountSeparators(content, LabelSeparator) + 1
    ensures forall i :: 0 <= i < |labels| ==> IsTrimmed(labels[i])
  {
    var pieces := Split(content, LabelSeparator);
    SplitLength(content, LabelSeparator);
    seq(|pieces|, i requires 0 <= i < |pieces| => Trim(pieces[i]))
  }

  /** The labels are the trimmed pieces of a cut of the reply at every separator:
      the pieces put back together with ", " are the reply, and none of them holds
      a separator. */
  lemma LabelsArePiecesOfReply(content: string)
    ensures var pieces := Split(content, LabelSeparator);
      && Join(pieces, LabelSeparator) == content
      && (forall p <- pieces :: Free(p, LabelSeparator))
      && |ParseLabels(content)| == |pieces|
      && forall i :: 0 <= i < |pieces| ==> ParseLabels(content)[i] == Trim(pieces[i])
  {
    JoinSplit(content, LabelSeparator);
    SplitPiecesFree(content, LabelSeparator);
  }

  /** Trimmed labels that hold no separator come back unchanged from joining them
      with ", " and parsing the result. */
  lemma {:induction false} ParseJoinedLabels(labels: seq<string>)
    requires labels != []
    requires forall l <- labels :: IsTrimmed(l) && Free(l, LabelSeparator)
    ensures ParseLabels(Join(labels, LabelSeparator)) == labels
  {
    assert Unbordered(LabelSeparator);
    SplitJoin(labels, LabelSeparator);
    forall i | 0 <= i < |labels| ensures Trim(labels[i]) == labels[i] {
      TrimOfTrimmed(labels[i]);
    }
  }

  /** A text holds no label separator when no comma in it is followed by a space. */
  lemma {:induction false} FreeOfSeparator(s: string)
    requires forall i :: 0 <= i < |s| - 1 ==> s[i] != ',' || s[i + 1] != ' '
    ensures Free(s, LabelSeparator)
  {
    forall i | 0 <= i < |s| ensures !OccursAt(s, LabelSeparator, i) {
      if i + 2 <= |s| {
        assert s[i..i + 2] == [s[i], s[i + 1]];
      }
    }
  }

  /** A trimmed reply without a separator is a single label: itself. */
  lemma SingleLabel(content: string)
    requires Free(content, LabelSeparator) && IsTrimmed(content)
    ensures ParseLabels(content) == [content]
  {
    SplitOfFree(content, LabelSeparator);
    TrimOfTrimmed(content);
  }

  /** An empty reply is one blank label, not an empty list. */
  lemma EmptyReplyLabels()
    ensures ParseLabels("") == [""]
  {
    assert Trim("") == "" by { TrimOfTrimmed(""); }
  }

  /** Every label is trimmed, so trimming the labels again changes nothing. */
  lemma {:induction false} LabelsTrimIdempotent(content: string)
    ensures var labels := ParseLabels(content);
      forall i :: 0 <= i < |labels| ==> Trim(labels[i]) == labels[i]
  {
    var labels := ParseLabels(content);
    forall i | 0 <= i < |labels| ensures Trim(labels[i]) == labels[i] {
      TrimOfTrimmed(labels[i]);
    }
  }

  /** A reply of white space only is one empty label. */
  lemma {:induction false} AllWhiteReplyLabels(content: string)
    requires AllWhite(content)
    ensures ParseLabels(content) == [""]
  {
    assert Free(content, LabelSeparator) by {
      forall i | 0 <= i < |content| ensures !OccursAt(content, LabelSeparator, i) {
        assert IsWhite(content[i]);
        if i + 2 <= |content| {
          assert content[i..i + 2][0] == content[i] != ',';
        }
      }
    }
    SplitOfFree(content, LabelSeparator);
    TrimAllWhite(content);
  }

  /** parseInt(content), with NaN read as 0: the tool's isNaN(tempo) ? 0 : tempo. */
  function ParseTempo(content: string): (tempo: int)
    ensures JsNumber.ParseInt(content).Some? ==> tempo == JsNumber.ParseInt(content).value
    ensures JsNumber.ParseInt(content).None? ==> tempo == 0
  {
    match JsNumber.ParseInt(content)
    case None => 0
    case Some(n) => n
  }

  /** parseInt(content) || 0, the graph node's reading: NaN and 0 are both falsy,
      so both give 0. */
  function ParseTempoOrZero(content: string): (tempo: int)
    ensures JsNumber.ParseInt(content).Some? ==> tempo == JsNumber.ParseInt(content).value
    ensures JsNumber.ParseInt(content).None? ==> tempo == 0
  {
    match JsNumber.ParseInt(content)
    case None => 0
    case Some(n) => if n == 0 then 0 else n
  }

  /** The two readings of the tempo agree on every reply. */
  lemma TempoReadingsAgree(content: string)
    ensures ParseTempoOrZero(content) == ParseTempo(content)
  {
  }
}

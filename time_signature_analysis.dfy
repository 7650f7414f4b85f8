/**
 * analyzeTimeSignature: ask the model for the time signature and keep its reply
 * trimmed, with no check that it has the form n/m; any failure of the call
 * gives "".
 */
module TimeSignatureAnalysis {
  import opened JsString
  import opened Inference

  function AnalyzeTimeSignature(ask: Oracle, metadata: AudioMetadata): (signature: string)
    ensures IsTrimmed(signature)
    ensures ask(metadata, TimeSignature).Unavailable? ==> signature == ""
    ensures ask(metadata, TimeSignature).Answered? ==> WhiteAround(ask(metadata, TimeSignature).content, signature)
  {
    match ask(metadata, TimeSignature)
    case Unavailable => ""
    case Answered(content) => Trim(content)
  }

  /** Any text without white space at its ends is accepted verbatim, whatever
      white space surrounds it in the reply. */
  lemma SignatureIsReplyWithoutWhite(ask: Oracle, metadata: AudioMetadata, before: string, signature: string, after: string)
    requires AllWhite(before) && AllWhite(after) && IsTrimmed(signature)
    requires ask(metadata, TimeSignature) == Answered(before + signature + after)
    ensures AnalyzeTimeSignature(ask, metadata) == signature
  {
    TrimUnique(before, signature, after);
  }

  /** " 3/4\n" gives "3/4". */
  lemma PaddedSignature(ask: Oracle, metadata: AudioMetadata)
    requires ask(metadata, TimeSignature) == Answered(" 3/4\n")
    ensures AnalyzeTimeSignature(ask, metadata) == "3/4"
  {
    assert " " + "3/4" + "\n" == " 3/4\n";
    TrimUnique(" ", "3/4", "\n");
  }

  /** A reply that is already a signature the analyzer returned reads as that
      same signature. */
  lemma SignatureIdempotent(ask: Oracle, ask2: Oracle, metadata: AudioMetadata)
    requires ask2(metadata, TimeSignature) == Answered(AnalyzeTimeSignature(ask, metadata))
    ensures AnalyzeTimeSignature(ask2, metadata) == AnalyzeTimeSignature(ask, metadata)
  {
    TrimOfTrimmed(AnalyzeTimeSignature(ask, metadata));
  }
}

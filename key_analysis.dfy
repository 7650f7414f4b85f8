/**
 * analyzeKey: ask the model for the musical key and keep its reply trimmed, with
 * no check that it names a key; any failure of the call gives "".
 */
module KeyAnalysis {
  import opened JsString
  import opened Inference

  function AnalyzeKey(ask: Oracle, metadata: AudioMetadata): (key: string)
    ensures IsTrimmed(key)
    ensures ask(metadata, Key).Unavailable? ==> key == ""
    ensures ask(metadata, Key).Answered? ==> WhiteAround(ask(metadata, Key).content, key)
  {
    match ask(metadata, Key)
    case Unavailable => ""
    case Answered(content) => Trim(content)
  }

  /** Whatever the reply holds between its leading and trailing white space is
      the key, unchecked. */
  lemma KeyIsReplyWithoutWhite(ask: Oracle, metadata: AudioMetadata, before: string, key: string, after: string)
    requires AllWhite(before) && AllWhite(after) && IsTrimmed(key)
    requires ask(metadata, Key) == Answered(before + key + after)
    ensures AnalyzeKey(ask, metadata) == key
  {
    TrimUnique(before, key, after);
  }

  /** A reply that is already a key the analyzer returned reads as that same key. */
  lemma KeyIdempotent(ask: Oracle, ask2: Oracle, metadata: AudioMetadata)
    requires ask2(metadata, Key) == Answered(AnalyzeKey(ask, metadata))
    ensures AnalyzeKey(ask2, metadata) == AnalyzeKey(ask, metadata)
  {
    TrimOfTrimmed(AnalyzeKey(ask, metadata));
  }

  /** A reply of white space only gives "". */
  lemma BlankReplyKey(ask: Oracle, metadata: AudioMetadata, content: string)
    requires ask(metadata, Key) == Answered(content) && AllWhite(content)
    ensures AnalyzeKey(ask, metadata) == ""
  {
    TrimAllWhite(content);
  }
}

/**
 * analyzeTempo: ask the model for the tempo in BPM and read its reply with
 * parseInt, NaN becoming 0; any failure of the call gives 0.
 */
module TempoAnalysis {
  import opened Wrappers
  import opened JsString
  import opened JsNumber
  import opened Inference
  import opened ToolParsers

  function AnalyzeTempo(ask: Oracle, metadata: AudioMetadata): (tempo: int)
    ensures ask(metadata, Tempo).Unavailable? ==> tempo == 0
    ensures tempo != 0 ==> ask(metadata, Tempo).Answered? && ParseInt(ask(metadata, Tempo).content) == Some(tempo)
    ensures ask(metadata, Tempo).Answered? && ParseInt(ask(metadata, Tempo).content).Some? ==>
      tempo == ParseInt(ask(metadata, Tempo).content).value
    ensures ask(metadata, Tempo).Answered? && ParseInt(ask(metadata, Tempo).content).None? ==> tempo == 0
  {
    match ask(metadata, Tempo)
    case Unavailable => 0
    case Answered(content) => ParseTempo(content)
  }

  /** A reply that is an integer written in decimal gives that integer. */
  lemma DecimalReplyTempo(ask: Oracle, metadata: AudioMetadata, n: int)
    requires ask(metadata, Tempo) == Answered(DecimalString(n))
    ensures AnalyzeTempo(ask, metadata) == n
  {
    ParseIntDecimalString(n);
  }

  /** Only the number at the start of the reply counts: white space before it is
      skipped, a sign is honoured (so the tempo can be negative) and the text after
      the digits is ignored. */
  lemma LeadingNumberTempo(ask: Oracle, metadata: AudioMetadata, w: string, sign: string, n: nat, rest: string)
    requires AllWhite(w)
    requires sign == "" || sign == "+" || sign == "-"
    requires rest == [] || (!IsDecimalDigit(rest[0]) && (n != 0 || (rest[0] != 'x' && rest[0] != 'X')))
    requires ask(metadata, Tempo) == Answered(w + sign + DecimalDigits(n) + rest)
    ensures AnalyzeTempo(ask, metadata) == if sign == "-" then -(n as int) else n
  {
    ParseIntDecimalPrefix(w, sign, n, rest);
  }

  /** "120 BPM" is read as 120. */
  lemma BpmSuffixTempo(ask: Oracle, metadata: AudioMetadata)
    requires ask(metadata, Tempo) == Answered("120 BPM")
    ensures AnalyzeTempo(ask, metadata) == 120
  {
    assert DecimalDigits(12) == "12";
    assert DecimalDigits(120) == "120";
    assert "" + "" + DecimalDigits(120) + " BPM" == "120 BPM";
    ParseIntDecimalPrefix("", "", 120, " BPM");
  }

  /** A reply with no digit after the white space and the sign gives 0. */
  lemma NoDigitsTempo(ask: Oracle, metadata: AudioMetadata, content: string)
    requires ask(metadata, Tempo) == Answered(content)
    requires Unsigned(content) == [] || !IsDecimalDigit(Unsigned(content)[0])
    ensures AnalyzeTempo(ask, metadata) == 0
  {
    ParseIntWithoutDigits(content);
  }

  /** "approximately 120" gives 0: the number is not at the start. */
  lemma WordsFirstTempo(ask: Oracle, metadata: AudioMetadata)
    requires ask(metadata, Tempo) == Answered("approximately 120")
    ensures AnalyzeTempo(ask, metadata) == 0
  {
    var s := "approximately 120";
    assert !IsWhite(s[0]);
    assert TrimStart(s) == s;
    NoDigitsTempo(ask, metadata, s);
  }

  /** A 0x prefix reads hexadecimal: "0x1F" is 31. */
  lemma HexReplyTempo(ask: Oracle, metadata: AudioMetadata)
    requires ask(metadata, Tempo) == Answered("0x1F")
    ensures AnalyzeTempo(ask, metadata) == 31
  {
    ParseIntHexExample();
  }

  /** A bare "0x" has no hexadecimal digits: NaN, so 0. */
  lemma BareHexPrefixTempo(ask: Oracle, metadata: AudioMetadata)
    requires ask(metadata, Tempo) == Answered("0x")
    ensures AnalyzeTempo(ask, metadata) == 0
  {
    ParseIntBareHexPrefix();
  }
}

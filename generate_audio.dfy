/**
 * The generate-audio route: 16-bit mono PCM samples laid out as a RIFF WAVE
 * file (Microsoft/IBM Multimedia Programming Interface and Data Specifications
 * 1.0, chapter 3): a 44-byte header of little-endian fields at fixed offsets,
 * then the samples, each a two's complement 16-bit little-endian value.
 * The samples are given; the sine synthesis that produces them is floating point.
 */
module GenerateAudio {
  import opened Wrappers
  import opened NodeBuffer

  const SampleRate := 44100
  const Duration := 5
  const NumChannels := 1
  const BitsPerSample := 16
  const HeaderSize := 44
  const PcmFormat := 1
  const FmtChunkSize := 16

  predicate AreSamples(samples: seq<int>) {
    forall i :: 0 <= i < |samples| ==> IsInt16(samples[i])
  }

  /** Sizes the 32-bit header fields can hold. */
  predicate Fits(samples: seq<int>) {
    IsUInt32(36 + 2 * |samples|)
  }

  /** The samples as consecutive int16 little-endian values. */
  function PcmBytes(samples: seq<int>): (pcm: seq<byte>)
    requires AreSamples(samples)
    ensures |pcm| == 2 * |samples|
  {
    if samples == [] then [] else PcmBytes(samples[..|samples| - 1]) + I16LE(samples[|samples| - 1])
  }

  /** Bytes 0..12: "RIFF", the size of the rest of the file, "WAVE". */
  function RiffDescriptor(dataSize: nat): (bytes: seq<byte>)
    requires IsUInt32(36 + dataSize)
    ensures |bytes| == 12
  {
    Ascii("RIFF") + U32LE(36 + dataSize) + Ascii("WAVE")
  }

  /** Bytes 12..36: the fmt sub-chunk, 16 bytes of format after its tag and size. */
  function FmtChunk(): (bytes: seq<byte>)
    ensures |bytes| == 24
  {
    Ascii("fmt ") + U32LE(FmtChunkSize) + U16LE(PcmFormat) + U16LE(NumChannels)
    + U32LE(SampleRate) + U32LE(SampleRate * 2) + U16LE(2) + U16LE(BitsPerSample)
  }

  /** Bytes 36..44: "data" and the size of the samples. */
  function DataChunkHeader(dataSize: nat): (bytes: seq<byte>)
    requires IsUInt32(dataSize)
    ensures |bytes| == 8
  {
    Ascii("data") + U32LE(dataSize)
  }

  /** The 44-byte header for a data chunk of dataSize bytes. */
  function Header(dataSize: nat): (header: seq<byte>)
    requires IsUInt32(36 + dataSize)
    ensures |header| == HeaderSize
  {
    RiffDescriptor(dataSize) + FmtChunk() + DataChunkHeader(dataSize)
  }

  /** The whole file: header, then the PCM data. */
  function WavFile(samples: seq<int>): (wav: seq<byte>)
    requires AreSamples(samples) && Fits(samples)
    ensures |wav| == HeaderSize + 2 * |samples|
  {
    Header(2 * |samples|) + PcmBytes(samples)
  }

  /** A reader for the same layout. */
  function DecodeSamples(pcm: seq<byte>): seq<int>
    requires |pcm| % 2 == 0
  {
    if pcm == [] then [] else DecodeSamples(pcm[..|pcm| - 2]) + [ReadI16LE(pcm[|pcm| - 2..])]
  }

  /** The tags, the mono 16-bit PCM format fields and the two sizes of a file of
      that length. */
  predicate IsPcmHeader(bytes: seq<byte>)
    requires |bytes| >= HeaderSize
  {
    && bytes[0..4] == Ascii("RIFF") && ReadU32LE(bytes[4..8]) == |bytes| - 8
    && bytes[8..12] == Ascii("WAVE") && bytes[12..16] == Ascii("fmt ")
    && ReadU16LE(bytes[20..22]) == PcmFormat && ReadU16LE(bytes[22..24]) == NumChannels
    && ReadU16LE(bytes[34..36]) == BitsPerSample
    && bytes[36..40] == Ascii("data") && ReadU32LE(bytes[40..44]) == |bytes| - HeaderSize
  }

  /** The samples of a file with such a header, or None. */
  function DecodeWav(bytes: seq<byte>): Option<seq<int>>
  {
    if |bytes| >= HeaderSize && (|bytes| - HeaderSize) % 2 == 0 && IsPcmHeader(bytes)
    then Some(DecodeSamples(bytes[HeaderSize..]))
    else None
  }

  /** Sample i sits at bytes 2i and 2i+1 of the PCM data and reads back unchanged. */
  lemma {:induction false} PcmSample(samples: seq<int>, i: nat)
    requires AreSamples(samples) && i < |samples|
    ensures PcmBytes(samples)[2 * i..2 * i + 2] == I16LE(samples[i])
    ensures ReadI16LE(PcmBytes(samples)[2 * i..2 * i + 2]) == samples[i]
  {
    var init := samples[..|samples| - 1];
    if i < |samples| - 1 {
      PcmSample(init, i);
      assert init[i] == samples[i];
      var a := PcmBytes(init);
      var b := I16LE(samples[|samples| - 1]);
      assert (a + b)[2 * i..2 * i + 2] == a[2 * i..2 * i + 2];
    }
    I16RoundTrip(samples[i]);
  }

  lemma {:induction false} PcmRoundTrip(samples: seq<int>)
    requires AreSamples(samples)
    ensures DecodeSamples(PcmBytes(samples)) == samples
  {
    if samples != [] {
      var init := samples[..|samples| - 1];
      var pcm := PcmBytes(samples);
      assert pcm[..|pcm| - 2] == PcmBytes(init);
      assert pcm[|pcm| - 2..] == I16LE(samples[|samples| - 1]);
      PcmRoundTrip(init);
      I16RoundTrip(samples[|samples| - 1]);
      assert init + [samples[|samples| - 1]] == samples;
    }
  }

  lemma RiffFields(dataSize: nat)
    requires IsUInt32(36 + dataSize)
    ensures RiffDescriptor(dataSize)[0..4] == Ascii("RIFF")
    ensures RiffDescriptor(dataSize)[4..8] == U32LE(36 + dataSize)
    ensures RiffDescriptor(dataSize)[8..12] == Ascii("WAVE")
  {
  }

  lemma FmtFields()
    ensures FmtChunk()[0..4] == Ascii("fmt ") && FmtChunk()[4..8] == U32LE(FmtChunkSize)
    ensures FmtChunk()[8..10] == U16LE(PcmFormat) && FmtChunk()[10..12] == U16LE(NumChannels)
    ensures FmtChunk()[12..16] == U32LE(SampleRate) && FmtChunk()[16..20] == U32LE(SampleRate * 2)
    ensures FmtChunk()[20..22] == U16LE(2) && FmtChunk()[22..24] == U16LE(BitsPerSample)
  {
    var a := Ascii("fmt ") + U32LE(FmtChunkSize) + U16LE(PcmFormat) + U16LE(NumChannels);
    var b := U32LE(SampleRate) + U32LE(SampleRate * 2) + U16LE(2) + U16LE(BitsPerSample);
    assert FmtChunk() == a + b;
  }

  lemma DataHeaderFields(dataSize: nat)
    requires IsUInt32(dataSize)
    ensures DataChunkHeader(dataSize)[0..4] == Ascii("data")
    ensures DataChunkHeader(dataSize)[4..8] == U32LE(dataSize)
  {
  }

  /** Four consecutive parts of lengths 12, 24 and 8, then the rest. */
  lemma FourParts(r: seq<byte>, f: seq<byte>, d: seq<byte>, p: seq<byte>)
    requires |r| == 12 && |f| == 24 && |d| == 8
    ensures (r + f + d + p)[0..12] == r && (r + f + d + p)[12..36] == f
    ensures (r + f + d + p)[36..44] == d && (r + f + d + p)[44..] == p
  {
  }

  /** The file is the three header chunks, then the data. */
  lemma WavParts(samples: seq<int>)
    requires AreSamples(samples) && Fits(samples)
    ensures WavFile(samples)[0..12] == RiffDescriptor(2 * |samples|)
    ensures WavFile(samples)[12..36] == FmtChunk()
    ensures WavFile(samples)[36..44] == DataChunkHeader(2 * |samples|)
    ensures WavFile(samples)[HeaderSize..] == PcmBytes(samples)
  {
    FourParts(RiffDescriptor(2 * |samples|), FmtChunk(), DataChunkHeader(2 * |samples|), PcmBytes(samples));
  }

  /** A field inside a chunk of the file. */
  lemma FieldOfChunk(bytes: seq<byte>, start: nat, end: nat, i: nat, j: nat)
    requires start <= end <= |bytes| && i <= j <= end - start
    ensures bytes[start..end][i..j] == bytes[start + i..start + j]
  {
    assert forall k :: 0 <= k < j - i ==> bytes[start..end][i..j][k] == bytes[start + i + k];
  }

  /** The tags at offsets 0, 8, 12 and 36, and the two sizes. */
  lemma WavLayout(samples: seq<int>)
    requires AreSamples(samples) && Fits(samples)
    ensures WavFile(samples)[0..4] == Ascii("RIFF") && WavFile(samples)[8..12] == Ascii("WAVE")
    ensures WavFile(samples)[12..16] == Ascii("fmt ") && WavFile(samples)[36..40] == Ascii("data")
    ensures ReadU32LE(WavFile(samples)[4..8]) == 36 + 2 * |samples|
    ensures ReadU32LE(WavFile(samples)[40..44]) == 2 * |samples|
  {
    var wav := WavFile(samples);
    WavParts(samples);
    RiffFields(2 * |samples|);
    FmtFields();
    DataHeaderFields(2 * |samples|);
    FieldOfChunk(wav, 0, 12, 0, 4);
    FieldOfChunk(wav, 0, 12, 4, 8);
    FieldOfChunk(wav, 0, 12, 8, 12);
    FieldOfChunk(wav, 12, 36, 0, 4);
    FieldOfChunk(wav, 36, 44, 0, 4);
    FieldOfChunk(wav, 36, 44, 4, 8);
    U32RoundTrip(36 + 2 * |samples|);
    U32RoundTrip(2 * |samples|);
  }

  /** The fmt chunk: size 16, PCM, one channel, 44100 Hz, byte rate, block align, 16 bits. */
  lemma WavFormat(samples: seq<int>)
    requires AreSamples(samples) && Fits(samples)
    ensures ReadU32LE(WavFile(samples)[16..20]) == FmtChunkSize
    ensures ReadU16LE(WavFile(samples)[20..22]) == PcmFormat
    ensures ReadU16LE(WavFile(samples)[22..24]) == NumChannels
    ensures ReadU32LE(WavFile(samples)[24..28]) == SampleRate
    ensures ReadU32LE(WavFile(samples)[28..32]) == SampleRate * 2
    ensures ReadU16LE(WavFile(samples)[32..34]) == 2
    ensures ReadU16LE(WavFile(samples)[34..36]) == BitsPerSample
  {
    var wav := WavFile(samples);
    WavParts(samples);
    FmtFields();
    FieldOfChunk(wav, 12, 36, 4, 8);
    FieldOfChunk(wav, 12, 36, 8, 10);
    FieldOfChunk(wav, 12, 36, 10, 12);
    FieldOfChunk(wav, 12, 36, 12, 16);
    FieldOfChunk(wav, 12, 36, 16, 20);
    FieldOfChunk(wav, 12, 36, 20, 22);
    FieldOfChunk(wav, 12, 36, 22, 24);
    FmtValues();
  }

  /** The values the fmt fields hold. */
  lemma FmtValues()
    ensures ReadU32LE(U32LE(FmtChunkSize)) == FmtChunkSize
    ensures ReadU16LE(U16LE(PcmFormat)) == PcmFormat && ReadU16LE(U16LE(NumChannels)) == NumChannels
    ensures ReadU32LE(U32LE(SampleRate)) == SampleRate && ReadU32LE(U32LE(SampleRate * 2)) == SampleRate * 2
    ensures ReadU16LE(U16LE(2)) == 2 && ReadU16LE(U16LE(BitsPerSample)) == BitsPerSample
  {
    U32RoundTrip(FmtChunkSize);
    U32RoundTrip(SampleRate);
    U32RoundTrip(SampleRate * 2);
    U16RoundTrip(PcmFormat);
    U16RoundTrip(NumChannels);
    U16RoundTrip(2);
    U16RoundTrip(BitsPerSample);
  }

  /** The byte rate and block align agree with the rate, channels and sample width. */
  lemma WavHeaderConsistent(samples: seq<int>)
    requires AreSamples(samples) && Fits(samples)
    ensures var wav := WavFile(samples);
      ReadU32LE(wav[28..32])
        == ReadU32LE(wav[24..28]) * ReadU16LE(wav[22..24]) * ReadU16LE(wav[34..36]) / 8
      && ReadU16LE(wav[32..34]) == ReadU16LE(wav[22..24]) * ReadU16LE(wav[34..36]) / 8
  {
    WavFormat(samples);
  }

  /** Sample i is the int16 at byte 44 + 2i of the file. */
  lemma WavSample(samples: seq<int>, i: nat)
    requires AreSamples(samples) && Fits(samples) && i < |samples|
    ensures ReadI16LE(WavFile(samples)[HeaderSize + 2 * i..HeaderSize + 2 * i + 2]) == samples[i]
  {
    var wav := WavFile(samples);
    WavParts(samples);
    PcmSample(samples, i);
    assert wav[HeaderSize + 2 * i..HeaderSize + 2 * i + 2] == wav[HeaderSize..][2 * i..2 * i + 2];
  }

  /** A reader of the layout gets the samples back. */
  lemma WavRoundTrip(samples: seq<int>)
    requires AreSamples(samples) && Fits(samples)
    ensures DecodeWav(WavFile(samples)) == Some(samples)
  {
    var wav := WavFile(samples);
    var pcm := PcmBytes(samples);
    TwiceIsEven(|samples|);
    assert IsPcmHeader(wav) by { WavHeaderRecognised(samples); }
    assert wav[HeaderSize..] == pcm by { WavParts(samples); }
    assert DecodeSamples(pcm) == samples by { PcmRoundTrip(samples); }
    DecodeRecognised(wav, pcm, samples);
  }

  lemma TwiceIsEven(n: nat)
    ensures (2 * n) % 2 == 0
  {
  }

  /** A recognised header followed by PCM bytes that read as samples decodes to those samples. */
  lemma DecodeRecognised(wav: seq<byte>, pcm: seq<byte>, samples: seq<int>)
    requires |wav| >= HeaderSize && IsPcmHeader(wav)
    requires wav[HeaderSize..] == pcm && |pcm| % 2 == 0 && DecodeSamples(pcm) == samples
    ensures DecodeWav(wav) == Some(samples)
  {
  }

  lemma WavHeaderRecognised(samples: seq<int>)
    requires AreSamples(samples) && Fits(samples)
    ensures IsPcmHeader(WavFile(samples))
  {
    WavLayout(samples);
    WavFormat(samples);
  }

  /** A write just past what is already filled, into zeros, extends the filled part. */
  lemma WriteOverZeros(before: seq<byte>, filled: seq<byte>, part: seq<byte>, after: seq<byte>)
    requires |filled| + |part| <= |before|
    requires before == filled + Zeros(|before| - |filled|)
    requires after == before[..|filled|] + part + before[|filled| + |part|..]
    ensures after == filled + part + Zeros(|before| - |filled| - |part|)
  {
    assert before[..|filled|] == filled;
    assert before[|filled| + |part|..] == Zeros(|before| - |filled| - |part|);
  }

  /** The PCM loop: sample i written as int16 little-endian at byte 2i. */
  method EncodePcm(samples: seq<int>) returns (pcm: array<byte>)
    requires AreSamples(samples)
    ensures fresh(pcm) && pcm[..] == PcmBytes(samples)
  {
    pcm := Alloc(|samples| * 2);
    for i := 0 to |samples|
      invariant pcm[..] == PcmBytes(samples[..i]) + Zeros(2 * (|samples| - i))
    {
      ghost var before := pcm[..];
      WriteInt16LE(pcm, samples[i], i * 2);
      WriteOverZeros(before, PcmBytes(samples[..i]), I16LE(samples[i]), pcm[..]);
      assert samples[..i + 1][..i] == samples[..i];
    }
    assert samples[..|samples|] == samples;
  }

  /** The header is filled up to offset, and zero after it. */
  ghost predicate FilledUpTo(wav: seq<byte>, filled: seq<byte>) {
    |filled| <= |wav| && wav == filled + Zeros(|wav| - |filled|)
  }

  /** buf.write(text, offset) just past the filled part of the header. */
  method PutAscii(wav: array<byte>, ghost filled: seq<byte>, text: string, offset: nat)
    requires forall k :: 0 <= k < |text| ==> text[k] < 128 as char
    requires offset == |filled| && offset + |text| <= wav.Length && FilledUpTo(wav[..], filled)
    modifies wav
    ensures FilledUpTo(wav[..], filled + Ascii(text))
  {
    ghost var before := wav[..];
    Write(wav, text, offset);
    WriteOverZeros(before, filled, Ascii(text), wav[..]);
  }

  /** buf.writeUInt16LE(value, offset) just past the filled part of the header. */
  method PutUInt16(wav: array<byte>, ghost filled: seq<byte>, value: int, offset: nat)
    requires IsUInt16(value)
    requires offset == |filled| && offset + 2 <= wav.Length && FilledUpTo(wav[..], filled)
    modifies wav
    ensures FilledUpTo(wav[..], filled + U16LE(value))
  {
    ghost var before := wav[..];
    WriteUInt16LE(wav, value, offset);
    WriteOverZeros(before, filled, U16LE(value), wav[..]);
  }

  /** buf.writeUInt32LE(value, offset) just past the filled part of the header. */
  method PutUInt32(wav: array<byte>, ghost filled: seq<byte>, value: int, offset: nat)
    requires IsUInt32(value)
    requires offset == |filled| && offset + 4 <= wav.Length && FilledUpTo(wav[..], filled)
    modifies wav
    ensures FilledUpTo(wav[..], filled + U32LE(value))
  {
    ghost var before := wav[..];
    WriteUInt32LE(wav, value, offset);
    WriteOverZeros(before, filled, U32LE(value), wav[..]);
  }

  /** Bytes 0..12: the RIFF chunk descriptor. */
  method WriteRiffDescriptor(wav: array<byte>, dataSize: nat)
    requires IsUInt32(36 + dataSize) && HeaderSize <= wav.Length
    requires FilledUpTo(wav[..], [])
    modifies wav
    ensures FilledUpTo(wav[..], RiffDescriptor(dataSize))
  {
    PutAscii(wav, [], "RIFF", 0);
    assert [] + Ascii("RIFF") == Ascii("RIFF");
    PutUInt32(wav, Ascii("RIFF"), 36 + dataSize, 4);
    PutAscii(wav, Ascii("RIFF") + U32LE(36 + dataSize), "WAVE", 8);
  }

  /** Bytes 12..36: the fmt sub-chunk. */
  method WriteFmtChunk(wav: array<byte>, ghost filled: seq<byte>)
    requires |filled| == 12 && HeaderSize <= wav.Length && FilledUpTo(wav[..], filled)
    modifies wav
    ensures FilledUpTo(wav[..], filled + FmtChunk())
  {
    ghost var done := filled;
    PutAscii(wav, done, "fmt ", 12);
    done := done + Ascii("fmt ");
    PutUInt32(wav, done, FmtChunkSize, 16);
    done := done + U32LE(FmtChunkSize);
    PutUInt16(wav, done, PcmFormat, 20);
    done := done + U16LE(PcmFormat);
    PutUInt16(wav, done, NumChannels, 22);
    done := done + U16LE(NumChannels);
    PutUInt32(wav, done, SampleRate, 24);
    done := done + U32LE(SampleRate);
    PutUInt32(wav, done, SampleRate * 2, 28);
    done := done + U32LE(SampleRate * 2);
    PutUInt16(wav, done, 2, 32);
    done := done + U16LE(2);
    PutUInt16(wav, done, BitsPerSample, 34);
    ghost var last := done + U16LE(BitsPerSample);
    assert last == filled + FmtChunk() by {
      Regroup(filled, Ascii("fmt ") + U32LE(FmtChunkSize) + U16LE(PcmFormat) + U16LE(NumChannels),
        U32LE(SampleRate), U32LE(SampleRate * 2), U16LE(2), U16LE(BitsPerSample));
    }
    assert FilledUpTo(wav[..], last);
  }

  /** Appending parts one at a time appends their concatenation. */
  lemma Regroup(filled: seq<byte>, a: seq<byte>, b: seq<byte>, c: seq<byte>, d: seq<byte>, e: seq<byte>)
    ensures filled + a + b + c + d + e == filled + (a + b + c + d + e)
  {
  }

  /** Bytes 36..44: the data sub-chunk's tag and size. */
  method WriteDataChunkHeader(wav: array<byte>, ghost filled: seq<byte>, dataSize: nat)
    requires |filled| == 36 && HeaderSize <= wav.Length && IsUInt32(dataSize)
    requires FilledUpTo(wav[..], filled)
    modifies wav
    ensures FilledUpTo(wav[..], filled + DataChunkHeader(dataSize))
  {
    PutAscii(wav, filled, "data", 36);
    PutUInt32(wav, filled + Ascii("data"), dataSize, 40);
    assert filled + Ascii("data") + U32LE(dataSize) == filled + DataChunkHeader(dataSize);
  }

  /** The header writes at their fixed offsets, then the copy of the PCM data at 44. */
  method EncodeWav(samples: seq<int>) returns (wav: array<byte>)
    requires AreSamples(samples) && Fits(samples)
    ensures fresh(wav) && wav[..] == WavFile(samples)
  {
    var pcm := EncodePcm(samples);
    wav := Alloc(HeaderSize + pcm.Length);
    assert [] + Zeros(wav.Length) == wav[..];
    WriteRiffDescriptor(wav, pcm.Length);
    WriteFmtChunk(wav, RiffDescriptor(pcm.Length));
    WriteDataChunkHeader(wav, RiffDescriptor(pcm.Length) + FmtChunk(), pcm.Length);
    ghost var before := wav[..];
    var copied := Copy(pcm, wav, HeaderSize);
    CopiedAfterHeader(before, Header(pcm.Length), pcm[..copied], wav[..]);
    assert pcm[..copied] == pcm[..];
  }

  /** Copying the data into the zeros after a written header gives header and data. */
  lemma CopiedAfterHeader(before: seq<byte>, header: seq<byte>, data: seq<byte>, after: seq<byte>)
    requires FilledUpTo(before, header) && |before| == |header| + |data|
    requires after == before[..|header|] + data + before[|header| + |data|..]
    ensures after == header + data
  {
    assert before[..|header|] == header;
    assert before[|header| + |data|..] == [];
  }

  /** What the route answers: the WAV bytes, as audio/wav. */
  datatype AudioResponse = AudioResponse(contentType: string, body: seq<byte>)

  /**
   * The route: five seconds of 44100 Hz mono samples laid out as a WAV file.
   * Every sample the sine synthesis produces lies in [-32767, 32767].
   */
  method Post(samples: seq<int>) returns (response: AudioResponse)
    requires |samples| == SampleRate * Duration && AreSamples(samples)
    ensures response.contentType == "audio/wav"
    ensures |response.body| == HeaderSize + 2 * SampleRate * Duration
    ensures response.body == WavFile(samples)
    ensures DecodeWav(response.body) == Some(samples)
  {
    var wav := EncodeWav(samples);
    WavRoundTrip(samples);
    response := AudioResponse("audio/wav", wav[..]);
  }
}

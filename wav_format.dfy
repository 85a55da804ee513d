/**
 * The canonical 44-byte PCM WAVE header of the Microsoft/IBM RIFF WAVE form,
 * read as the packed (`#pragma pack(1)`) struct `wav_header_t` with the
 * `fmt ` and `data` chunks contiguous.  Nothing is validated: every field is
 * taken at its fixed offset, whatever the file holds.
 */
module WavFormat {
  import opened Pcm

  /** Byte widths of the struct's thirteen fields, in declaration order. */
  const FieldWidths: seq<nat> := [4, 4, 4, 4, 4, 2, 2, 4, 4, 2, 2, 4, 4]

  // Field indices into FieldWidths.
  const RiffHeaderField: nat := 0
  const WavSizeField: nat := 1
  const WaveHeaderField: nat := 2
  const FmtHeaderField: nat := 3
  const FmtChunkSizeField: nat := 4
  const AudioFormatField: nat := 5
  const NumChannelsField: nat := 6
  const SampleRateField: nat := 7
  const ByteRateField: nat := 8
  const SampleAlignmentField: nat := 9
  const BitDepthField: nat := 10
  const DataHeaderField: nat := 11
  const DataBytesField: nat := 12

  /** Byte offset of field i in the packed struct: the widths of the fields before it. */
  function Offset(i: nat): nat
    requires i <= |FieldWidths|
  {
    if i == 0 then 0 else Offset(i - 1) + FieldWidths[i - 1]
  }

  /** sizeof(wav_header_t): also where the first sample byte sits. */
  const HeaderSize: nat := 44

  /** The packed layout puts channels at 22..23, rate at 24..27 and data length at 40..43. */
  lemma HeaderLayout()
    ensures Offset(|FieldWidths|) == HeaderSize
    ensures Offset(NumChannelsField) == 22 && Offset(NumChannelsField + 1) == 24
    ensures Offset(SampleRateField) == 24 && Offset(SampleRateField + 1) == 28
    ensures Offset(DataBytesField) == 40 && Offset(DataBytesField + 1) == 44
  {
    assert Offset(4) == 16;
    assert Offset(8) == 28;
    assert Offset(12) == 40;
  }

  /** The struct as read from disk; `char[4]` fields are kept as their raw bytes. */
  datatype WavHeader = WavHeader(
    riffHeader: seq<byte>,
    wavSize: int32,
    waveHeader: seq<byte>,
    fmtHeader: seq<byte>,
    fmtChunkSize: int32,
    audioFormat: int16,
    numChannels: int16,
    sampleRate: int32,
    byteRate: int32,
    sampleAlignment: int16,
    bitDepth: int16,
    dataHeader: seq<byte>,
    dataBytes: int32)
  {
    /** The char arrays have their declared length of four. */
    predicate WellShaped() {
      |riffHeader| == 4 && |waveHeader| == 4 && |fmtHeader| == 4 && |dataHeader| == 4
    }
  }

  /** The raw bytes of field i. */
  function Field(bs: seq<byte>, i: nat): (f: seq<byte>)
    requires i < |FieldWidths| && |bs| >= HeaderSize
    ensures |f| == FieldWidths[i]
  {
    HeaderLayout();
    OffsetMonotone(i + 1, |FieldWidths|);
    bs[Offset(i)..Offset(i + 1)]
  }

  lemma {:induction false} OffsetMonotone(i: nat, j: nat)
    requires i <= j <= |FieldWidths|
    ensures Offset(i) <= Offset(j)
  {
    if i < j {
      OffsetMonotone(i, j - 1);
    }
  }

  function Int16Field(bs: seq<byte>, i: nat): int16
    requires i < |FieldWidths| && FieldWidths[i] == 2 && |bs| >= HeaderSize
  {
    ToSigned(FromLE(Field(bs, i)), 2)
  }

  function Int32Field(bs: seq<byte>, i: nat): int32
    requires i < |FieldWidths| && FieldWidths[i] == 4 && |bs| >= HeaderSize
  {
    ToSigned(FromLE(Field(bs, i)), 4)
  }

  /** `m_file.read((uint8_t *)&hdr, sizeof(hdr))` on a file of at least 44 bytes. */
  function DecodeHeader(bs: seq<byte>): (h: WavHeader)
    requires |bs| >= HeaderSize
    ensures h.WellShaped()
  {
    WavHeader(
      Field(bs, RiffHeaderField),
      Int32Field(bs, WavSizeField),
      Field(bs, WaveHeaderField),
      Field(bs, FmtHeaderField),
      Int32Field(bs, FmtChunkSizeField),
      Int16Field(bs, AudioFormatField),
      Int16Field(bs, NumChannelsField),
      Int32Field(bs, SampleRateField),
      Int32Field(bs, ByteRateField),
      Int16Field(bs, SampleAlignmentField),
      Int16Field(bs, BitDepthField),
      Field(bs, DataHeaderField),
      Int32Field(bs, DataBytesField))
  }

  function Int32Bytes(x: int32): (bs: seq<byte>)
    ensures |bs| == 4
  {
    ToLE(ToUnsigned(x, 4), 4)
  }

  function Int16LE(x: int16): (bs: seq<byte>)
    ensures |bs| == 2
  {
    ToLE(ToUnsigned(x, 2), 2)
  }

  /** The fields of a header as byte strings, in struct order. */
  function FieldBytes(h: WavHeader): (fs: seq<seq<byte>>)
    requires h.WellShaped()
    ensures |fs| == |FieldWidths|
    ensures forall i :: 0 <= i < |fs| ==> |fs[i]| == FieldWidths[i]
  {
    [h.riffHeader, Int32Bytes(h.wavSize), h.waveHeader, h.fmtHeader,
     Int32Bytes(h.fmtChunkSize), Int16LE(h.audioFormat), Int16LE(h.numChannels),
     Int32Bytes(h.sampleRate), Int32Bytes(h.byteRate), Int16LE(h.sampleAlignment),
     Int16LE(h.bitDepth), h.dataHeader, Int32Bytes(h.dataBytes)]
  }

  function Concat(fs: seq<seq<byte>>): seq<byte>
  {
    if fs == [] then [] else Concat(fs[..|fs| - 1]) + fs[|fs| - 1]
  }

  /** The 44 bytes a packed header occupies on disk. */
  function EncodeHeader(h: WavHeader): (bs: seq<byte>)
    requires h.WellShaped()
    ensures |bs| == HeaderSize
  {
    var fs := FieldBytes(h);
    assert fs[..|fs|] == fs;
    PrefixLength(fs, |fs|);
    HeaderLayout();
    Concat(fs)
  }

  lemma {:induction false} ConcatAppend(xs: seq<seq<byte>>, ys: seq<seq<byte>>)
    ensures Concat(xs + ys) == Concat(xs) + Concat(ys)
  {
    if ys != [] {
      var zs := xs + ys;
      assert zs[..|zs| - 1] == xs + ys[..|ys| - 1];
      ConcatAppend(xs, ys[..|ys| - 1]);
    } else {
      assert xs + ys == xs;
    }
  }

  /** The bytes before field i are exactly Offset(i) long. */
  lemma {:induction false} PrefixLength(fs: seq<seq<byte>>, i: nat)
    requires i <= |fs| == |FieldWidths|
    requires forall j :: 0 <= j < |fs| ==> |fs[j]| == FieldWidths[j]
    ensures |Concat(fs[..i])| == Offset(i)
  {
    if i > 0 {
      assert fs[..i][..i - 1] == fs[..i - 1];
      PrefixLength(fs, i - 1);
    }
  }

  /** Laying the fields end to end puts field i exactly at Offset(i)..Offset(i + 1). */
  lemma ConcatField(fs: seq<seq<byte>>, i: nat)
    requires i < |fs| == |FieldWidths|
    requires forall j :: 0 <= j < |fs| ==> |fs[j]| == FieldWidths[j]
    ensures Offset(i + 1) <= |Concat(fs)|
    ensures Concat(fs)[Offset(i)..Offset(i + 1)] == fs[i]
  {
    assert fs == fs[..i + 1] + fs[i + 1..];
    ConcatAppend(fs[..i + 1], fs[i + 1..]);
    assert fs[..i + 1][..i] == fs[..i];
    PrefixLength(fs, i);
  }

  lemma Int16RoundTrip(x: int16)
    ensures ToSigned(FromLE(Int16LE(x)), 2) == x
  {
    FromLEToLE(ToUnsigned(x, 2), 2);
  }

  lemma Int32RoundTrip(x: int32)
    ensures ToSigned(FromLE(Int32Bytes(x)), 4) == x
  {
    FromLEToLE(ToUnsigned(x, 4), 4);
  }

  /** Reading back an encoded header gives the same header. */
  lemma HeaderRoundTrip(h: WavHeader)
    requires h.WellShaped()
    ensures DecodeHeader(EncodeHeader(h)) == h
  {
    var fs := FieldBytes(h);
    var bs := EncodeHeader(h);
    forall i | 0 <= i < |FieldWidths|
      ensures Field(bs, i) == fs[i]
    {
      ConcatField(fs, i);
    }
    Int32RoundTrip(h.wavSize);
    Int32RoundTrip(h.fmtChunkSize);
    Int16RoundTrip(h.audioFormat);
    Int16RoundTrip(h.numChannels);
    Int32RoundTrip(h.sampleRate);
    Int32RoundTrip(h.byteRate);
    Int16RoundTrip(h.sampleAlignment);
    Int16RoundTrip(h.bitDepth);
    Int32RoundTrip(h.dataBytes);
  }

  /** `m_data_bytes = hdr.data_bytes`: the signed field converted to `uint32_t`. */
  function DataBytes(h: WavHeader): (n: uint32)
    ensures ToSigned(n, 4) == h.dataBytes
    ensures h.dataBytes >= 0 ==> n == h.dataBytes
    ensures h.dataBytes < 0 ==> n >= 0x8000_0000
  {
    ToUnsigned(h.dataBytes, 4)
  }

  /**
   * What the decoder takes from a file: channels are the signed 16-bit value at
   * bytes 22..23, the rate the signed 32-bit value at 24..27 and the data length
   * the unsigned 32-bit value at 40..43, all little-endian.
   */
  lemma HeaderFieldsAtOffsets(bs: seq<byte>)
    requires |bs| >= HeaderSize
    ensures DecodeHeader(bs).numChannels == ToSigned(FromLE(bs[22..24]), 2)
    ensures DecodeHeader(bs).sampleRate == ToSigned(FromLE(bs[24..28]), 4)
    ensures DataBytes(DecodeHeader(bs)) == FromLE(bs[40..44])
  {
    HeaderLayout();
    var u := FromLE(bs[40..44]);
    var x := ToSigned(u, 4);
    assert ToUnsigned(x, 4) == u;
  }

  /** Bytes consumed per non-silent frame: one 16-bit sample for mono, two otherwise. */
  function BytesPerFrame(numChannels: int): (s: nat)
    ensures s == 2 || s == 4
    ensures s == 2 <==> numChannels == 1
  {
    if numChannels == 1 then 2 else 4
  }

  /** `b` is a whole number of frames of `step` bytes. */
  predicate MultipleOf(b: nat, step: nat)
  {
    if step == 2 then b % 2 == 0 else b % 4 == 0
  }

  /** The space `j` frames of `step` bytes take. */
  function Times(step: nat, j: nat): nat
  {
    if step == 2 then 2 * j else 4 * j
  }

  /** The smallest multiple of `step` that is at least `d`. */
  function RoundUp(d: nat, step: nat): (r: nat)
    requires step == 2 || step == 4
    ensures MultipleOf(r, step)
    ensures d <= r < d + step
    decreases d
  {
    if d == 0 then 0 else if d <= step then step else step + RoundUp(d - step, step)
  }

  /**
   * What the decoder needs of a file beyond existing: a whole header, a size a
   * 32-bit `File` can address, and every byte the decoder will read present
   * (a short read would leave frame memory unwritten, which the model does not
   * cover).  The decoder reads up to the first frame boundary at or past
   * `data_bytes`, so a stereo file whose length is 2 mod 4 is read 2 bytes past
   * its data region.
   */
  predicate Playable(file: seq<byte>)
    ensures Playable(file) ==> HeaderSize <= |file| && HeaderSize + DataBytes(DecodeHeader(file)) <= |file|
  {
    && HeaderSize <= |file| < 0x1_0000_0000
    && var h := DecodeHeader(file);
       HeaderSize + RoundUp(DataBytes(h), BytesPerFrame(h.numChannels)) <= |file|
  }
}

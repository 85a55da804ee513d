/**
 * The single-file WAV decoder.  A reader takes the channel count, sample rate
 * and data length from the header once, then hands out frames from byte 44
 * on: one 16-bit sample per frame for mono (copied into both channels), two
 * for any other channel count.  Once the byte counter reaches the data length
 * it pads with silence and reads nothing more.
 *
 * `Reader` is the reader's state as a value and `ReadFrames` the meaning of
 * one `getFrames` call; the class `WavFileReader` is the object the
 * playlist owns, proved to do what `ReadFrames` says.
 */
module WavFile {
  import opened Pcm
  import opened WavFormat

  /** The contents of a file store: path to bytes.  A path exists when it is a key. */
  type FileSystem = map<string, seq<byte>>

  /** A reader's state: the open file, the three header fields it keeps, and `m_bytes_read`. */
  datatype Reader = Reader(file: seq<byte>, numChannels: int, sampleRate: int, dataBytes: uint32, bytesRead: nat)
  {
    /** Bytes consumed per non-silent frame. */
    function Step(): nat
    {
      BytesPerFrame(numChannels)
    }

    /** `isFinished()`: the counter has reached the data length. */
    predicate Finished()
    {
      bytesRead >= dataBytes
    }

    /**
     * Every byte the reader will still read is in the file, and the counter is a
     * whole number of frames that stops at the first frame boundary at or past
     * the data length (it cannot wrap, since the file is under 4 GiB).
     */
    ghost predicate Valid()
    {
      && |file| < 0x1_0000_0000
      && HeaderSize + RoundUp(dataBytes, Step()) <= |file|
      && MultipleOf(bytesRead, Step())
      && bytesRead <= RoundUp(dataBytes, Step())
    }
  }

  /** The same open file and the same header fields: only the counter may differ. */
  predicate SameFile(r: Reader, r': Reader)
  {
    r.file == r'.file && r.numChannels == r'.numChannels
    && r.sampleRate == r'.sampleRate && r.dataBytes == r'.dataBytes
  }

  /** The reader the constructor builds for an existing, playable file. */
  function Open(file: seq<byte>): (r: Reader)
    requires Playable(file)
    ensures r.Valid() && r.file == file && r.bytesRead == 0
  {
    var h := DecodeHeader(file);
    Reader(file, h.numChannels, h.sampleRate, DataBytes(h), 0)
  }

  /** The constructor keeps channels from bytes 22..23, rate from 24..27 and length from 40..43. */
  lemma OpenUsesHeaderOffsets(file: seq<byte>)
    requires Playable(file)
    ensures Open(file).numChannels == ToSigned(FromLE(file[22..24]), 2)
    ensures Open(file).sampleRate == ToSigned(FromLE(file[24..28]), 4)
    ensures Open(file).dataBytes == FromLE(file[40..44])
    ensures !Open(file).Finished() <==> FromLE(file[40..44]) > 0
  {
    HeaderFieldsAtOffsets(file);
  }

  /** A counter that is a whole number of frames short of the data length has a whole frame left to read. */
  lemma RoomForFrame(r: Reader)
    requires r.Valid() && !r.Finished()
    ensures r.bytesRead + r.Step() <= RoundUp(r.dataBytes, r.Step())
  {
    MultiplesApart(r.bytesRead, RoundUp(r.dataBytes, r.Step()), r.Step());
  }

  /** Reading one frame from an unfinished reader keeps it valid; the frame's bytes are in the file. */
  lemma AdvanceValid(r: Reader)
    requires r.Valid() && !r.Finished()
    ensures HeaderSize + r.bytesRead + r.Step() <= |r.file|
    ensures r.(bytesRead := r.bytesRead + r.Step()).Valid()
  {
    RoomForFrame(r);
    MultipleOfAdvance(r.bytesRead, r.Step(), 1);
  }

  /** The frame whose first byte is at `pos`: both channels from one sample for mono. */
  function SampleFrame(r: Reader, pos: nat): Frame
    requires pos + r.Step() <= |r.file|
  {
    var left := Int16At(r.file, pos);
    if r.numChannels == 1 then Frame(left, left) else Frame(left, Int16At(r.file, pos + 2))
  }

  /** One iteration of the `getFrames` loop: the frame it stores and the state after. */
  function NextFrame(r: Reader): (res: (Frame, Reader))
    requires r.Valid()
    ensures res.1.Valid() && SameFile(r, res.1)
  {
    if r.Finished() then (Silence, r)
    else
      AdvanceValid(r);
      (SampleFrame(r, HeaderSize + r.bytesRead), r.(bytesRead := r.bytesRead + r.Step()))
  }

  /** The frame an unfinished reader hands out next, sample by sample, and where its counter goes. */
  lemma NextFrameReads(r: Reader)
    requires r.Valid() && !r.Finished()
    ensures HeaderSize + r.bytesRead + r.Step() <= |r.file|
    ensures r.bytesRead + r.Step() < 0x1_0000_0000
    ensures r.numChannels == 1 ==>
      NextFrame(r) == (Frame(Int16At(r.file, HeaderSize + r.bytesRead), Int16At(r.file, HeaderSize + r.bytesRead)),
                       r.(bytesRead := r.bytesRead + 2))
    ensures r.numChannels != 1 ==>
      NextFrame(r) == (Frame(Int16At(r.file, HeaderSize + r.bytesRead), Int16At(r.file, HeaderSize + r.bytesRead + 2)),
                       r.(bytesRead := r.bytesRead + 4))
  {
    RoomForFrame(r);
  }

  /** A reader is finished exactly when reading a frame no longer moves it. */
  lemma FinishedIffStalled(r: Reader)
    requires r.Valid()
    ensures r.Finished() <==> NextFrame(r).1 == r
    ensures r.Finished() <==> NextFrame(r) == (Silence, r)
  {
    if !r.Finished() {
      assert NextFrame(r).1.bytesRead == r.bytesRead + r.Step();
    }
  }

  /** `getFrames(frames, count)`: the frames stored in `frames[0..count)` and the state after. */
  function ReadFrames(r: Reader, count: nat): (res: (seq<Frame>, Reader))
    requires r.Valid()
    ensures |res.0| == count
    ensures res.1.Valid() && SameFile(r, res.1)
    ensures r.bytesRead <= res.1.bytesRead
    ensures r.Finished() ==> res.1.Finished()
  {
    if count == 0 then ([], r)
    else
      var previous := ReadFrames(r, count - 1);
      var next := NextFrame(previous.1);
      (previous.0 + [next.0], next.1)
  }

  function Min(a: int, b: int): int
  {
    if a <= b then a else b
  }

  /** The j-th frame a reader in state r hands out: audio while inside the data region, then silence. */
  function FrameAt(r: Reader, j: nat): Frame
    requires r.Valid()
  {
    var pos := r.bytesRead + Times(r.Step(), j);
    if pos < r.dataBytes then
      MultipleOfAdvance(r.bytesRead, r.Step(), j);
      RoomForFrame(r.(bytesRead := pos));
      SampleFrame(r, HeaderSize + pos)
    else Silence
  }

  /** A counter at or past the data length sits exactly on the frame boundary after it. */
  lemma FinishedCounter(r: Reader)
    requires r.Valid() && r.Finished()
    ensures r.bytesRead == RoundUp(r.dataBytes, r.Step())
  {
    RoundUpLeast(r.dataBytes, r.Step(), r.bytesRead);
  }

  /**
   * Closed form of a block read: frame j comes from byte 44 + bytesRead + step*j
   * while that lies inside the data region and is silence afterwards; the counter
   * advances by one step per audio frame and stops at the boundary.
   */
  lemma {:induction false} ReadFramesAt(r: Reader, count: nat)
    requires r.Valid()
    ensures forall j :: 0 <= j < count ==> ReadFrames(r, count).0[j] == FrameAt(r, j)
    ensures ReadFrames(r, count).1.bytesRead == Advanced(r, count)
  {
    if count > 0 {
      ReadFramesAt(r, count - 1);
      var prev := ReadFrames(r, count - 1);
      NextFrameAt(r, prev.1, count - 1);
      var whole := ReadFrames(r, count);
      assert whole.0 == prev.0 + [NextFrame(prev.1).0];
      forall j | 0 <= j < count
        ensures whole.0[j] == FrameAt(r, j)
      {
        if j < count - 1 {
          assert whole.0[j] == prev.0[j];
        }
      }
    }
  }

  /** The counter after reading `count` frames from r: one step per unfinished frame. */
  function Advanced(r: Reader, count: nat): nat
    requires r.Valid()
    decreases count
  {
    if count == 0 then r.bytesRead
    else
      var b := Advanced(r, count - 1);
      if b < r.dataBytes then b + r.Step() else b
  }

  /** In closed form: one step per frame, stopping at the frame boundary at or past the data length. */
  lemma {:induction false} AdvancedIsBounded(r: Reader, count: nat)
    requires r.Valid()
    ensures Advanced(r, count) == Min(r.bytesRead + Times(r.Step(), count), RoundUp(r.dataBytes, r.Step()))
  {
    if count > 0 {
      AdvancedIsBounded(r, count - 1);
      var step, d := r.Step(), r.dataBytes;
      var b, end := r.bytesRead + Times(step, count - 1), RoundUp(d, step);
      assert Times(step, count) == Times(step, count - 1) + step;
      MultipleOfAdvance(r.bytesRead, step, count - 1);
      if b < end {
        if b < d {
          MultiplesApart(b, end, step);
        } else {
          RoundUpLeast(d, step, b);
        }
      }
    }
  }

  /** Two distinct multiples of the step lie at least a step apart. */
  lemma MultiplesApart(x: nat, y: nat, step: nat)
    requires step == 2 || step == 4
    requires MultipleOf(x, step) && MultipleOf(y, step) && x < y
    ensures x + step <= y
  {
  }

  /**
   * A block read in closed form: the frames `FrameAt` gives and the counter
   * `Advanced` gives.  It is the same read as `ReadFrames` (`BlockIsReadFrames`).
   */
  function Block(r: Reader, count: nat): (res: (seq<Frame>, Reader))
    requires r.Valid()
    ensures |res.0| == count && res.1.Valid() && SameFile(r, res.1)
    ensures r.bytesRead <= res.1.bytesRead
    ensures r.Finished() ==> res.1.Finished()
  {
    ReadFramesAt(r, count);
    assert r.(bytesRead := Advanced(r, count)) == ReadFrames(r, count).1;
    (seq(count, j requires 0 <= j < count && r.Valid() => FrameAt(r, j)), r.(bytesRead := Advanced(r, count)))
  }

  lemma BlockIsReadFrames(r: Reader, count: nat)
    requires r.Valid()
    ensures Block(r, count) == ReadFrames(r, count)
  {
    ReadFramesAt(r, count);
    assert r.(bytesRead := Advanced(r, count)) == ReadFrames(r, count).1;
    assert Block(r, count).0 == ReadFrames(r, count).0;
  }

  /** Reading a + b frames is reading a frames, then b more. */
  lemma BlockSplit(r: Reader, a: nat, b: nat)
    requires r.Valid()
    ensures Block(r, a + b).0 == Block(r, a).0 + Block(Block(r, a).1, b).0
    ensures Block(r, a + b).1 == Block(Block(r, a).1, b).1
  {
    ReadFramesSplit(r, a, b);
    var whole, first := ReadFrames(r, a + b), ReadFrames(r, a);
    var rest := ReadFrames(first.1, b);
    BlockIsReadFrames(r, a + b);
    BlockIsReadFrames(r, a);
    assert Block(r, a) == first;
    BlockIsReadFrames(first.1, b);
    assert Block(Block(r, a).1, b) == rest;
  }

  /** One loop iteration, j frames into a read that started at r. */
  lemma NextFrameAt(r: Reader, r1: Reader, j: nat)
    requires r.Valid() && r1.Valid() && SameFile(r, r1)
    requires r1.bytesRead == Advanced(r, j)
    ensures NextFrame(r1).0 == FrameAt(r, j)
    ensures NextFrame(r1).1.bytesRead == Advanced(r, j + 1)
  {
    var pos := r.bytesRead + Times(r.Step(), j);
    AdvancedIsBounded(r, j);
    MultipleOfAdvance(r.bytesRead, r.Step(), j);
    if pos < r.dataBytes {
      assert r1.bytesRead == pos;
      RoomForFrame(r1);
    } else {
      RoundUpLeast(r.dataBytes, r.Step(), pos);
    }
  }

  lemma MultipleOfAdvance(b: nat, step: nat, j: nat)
    requires step == 2 || step == 4
    requires MultipleOf(b, step)
    ensures MultipleOf(b + Times(step, j), step)
  {
  }

  /** No multiple of the step lies between the data length and its round-up. */
  lemma {:induction false} RoundUpLeast(d: nat, step: nat, m: nat)
    requires step == 2 || step == 4
    requires MultipleOf(m, step) && d <= m
    ensures RoundUp(d, step) <= m
    decreases d
  {
    if d > step {
      MultiplesApart(0, m, step);
      RoundUpLeast(d - step, step, m - step);
    } else if d > 0 {
      MultiplesApart(0, m, step);
    }
  }

  /** Starting finished, a read yields only silence and changes nothing. */
  lemma {:induction false} FinishedReadsSilence(r: Reader, count: nat)
    requires r.Valid() && r.Finished()
    ensures ReadFrames(r, count) == (SilenceBlock(count), r)
  {
    if count > 0 {
      FinishedReadsSilence(r, count - 1);
      assert SilenceBlock(count) == SilenceBlock(count - 1) + [Silence];
    }
  }

  /** A mono reader hands out frames whose two channels are equal. */
  lemma {:induction false} MonoFramesAreDual(r: Reader, count: nat)
    requires r.Valid() && r.numChannels == 1
    ensures forall j :: 0 <= j < count ==> ReadFrames(r, count).0[j].left == ReadFrames(r, count).0[j].right
  {
    if count > 0 {
      MonoFramesAreDual(r, count - 1);
    }
  }

  /** Reading a + b frames is reading a frames and then b more: block size does not change the stream. */
  lemma {:induction false} ReadFramesSplit(r: Reader, a: nat, b: nat)
    requires r.Valid()
    ensures ReadFrames(r, a + b).0 == ReadFrames(r, a).0 + ReadFrames(ReadFrames(r, a).1, b).0
    ensures ReadFrames(r, a + b).1 == ReadFrames(ReadFrames(r, a).1, b).1
  {
    if b > 0 {
      ReadFramesSplit(r, a, b - 1);
    }
  }

  /**
   * From the first sample byte on (a freshly opened file), the k-th audio frame
   * of a mono file is the sample at byte 44 + 2k in both channels, and of any
   * other file the pair at 44 + 4k and 44 + 4k + 2.
   */
  lemma FromStartFrames(r: Reader, count: nat, k: nat)
    requires r.Valid() && r.bytesRead == 0 && k < count
    requires Times(r.Step(), k) < r.dataBytes
    ensures HeaderSize + Times(r.Step(), k) + r.Step() <= |r.file|
    ensures r.numChannels == 1 ==>
      ReadFrames(r, count).0[k] == Frame(Int16At(r.file, HeaderSize + 2 * k), Int16At(r.file, HeaderSize + 2 * k))
    ensures r.numChannels != 1 ==>
      ReadFrames(r, count).0[k] == Frame(Int16At(r.file, HeaderSize + 4 * k), Int16At(r.file, HeaderSize + 4 * k + 2))
  {
    assert ReadFrames(r, count).0[k] == FrameAt(r, k) by {
      ReadFramesAt(r, count);
    }
    FrameAtFromStart(r, k);
  }

  lemma FrameAtFromStart(r: Reader, k: nat)
    requires r.Valid() && r.bytesRead == 0
    requires Times(r.Step(), k) < r.dataBytes
    ensures HeaderSize + Times(r.Step(), k) + r.Step() <= |r.file|
    ensures r.numChannels == 1 ==>
      FrameAt(r, k) == Frame(Int16At(r.file, HeaderSize + 2 * k), Int16At(r.file, HeaderSize + 2 * k))
    ensures r.numChannels != 1 ==>
      FrameAt(r, k) == Frame(Int16At(r.file, HeaderSize + 4 * k), Int16At(r.file, HeaderSize + 4 * k + 2))
  {
    MultipleOfAdvance(0, r.Step(), k);
    RoomForFrame(r.(bytesRead := Times(r.Step(), k)));
  }

  /** A stereo file whose data length is 2 mod 4 is read 2 bytes past its data region before it is finished. */
  lemma StereoOverread(r: Reader)
    requires r.Valid() && r.Finished() && r.numChannels != 1 && r.dataBytes % 4 == 2
    ensures r.bytesRead == r.dataBytes + 2
  {
    FinishedCounter(r);
  }

  /**
   * `WAVFileReader`: the open file with its read cursor, the fields taken from
   * the header, and the byte counter.  Only the counter and the cursor change.
   */
  class WavFileReader {
    const file: seq<byte>
    const numChannels: int
    const rate: int
    const dataBytes: uint32
    var bytesRead: uint32
    var cursor: nat

    function State(): Reader
      reads this
    {
      Reader(file, numChannels, rate, dataBytes, bytesRead)
    }

    /** The file cursor always sits just after the bytes counted so far. */
    ghost predicate Valid()
      reads this
    {
      State().Valid() && cursor == HeaderSize + bytesRead
    }

    /** Opens an existing file, reads the header and seeks to the first sample byte. */
    constructor (fs: FileSystem, name: string)
      requires name in fs && Playable(fs[name])
      ensures Valid() && State() == Open(fs[name])
    {
      var contents := fs[name];
      var hdr := DecodeHeader(contents);
      file := contents;
      numChannels := hdr.numChannels;
      rate := hdr.sampleRate;
      dataBytes := DataBytes(hdr);
      bytesRead := 0;
      cursor := HeaderSize;
      new;
      assert State() == Open(contents);
    }

    /** `sampleRate()`: the rate the header gave the reader. */
    function SampleRate(): (r: int)
      reads this
      ensures r == State().sampleRate
    {
      rate
    }

    /** `isFinished()`: the modelled reader is finished. */
    predicate IsFinished()
      reads this
      ensures IsFinished() <==> State().Finished()
    {
      bytesRead >= dataBytes
    }

    /** `m_file.read(&x, sizeof(int16_t))`: the next two bytes at the cursor. */
    method ReadInt16() returns (x: int16)
      requires cursor + 2 <= |file|
      modifies this`cursor
      ensures x == Int16At(file, old(cursor)) && cursor == old(cursor) + 2
    {
      x := Int16At(file, cursor);
      cursor := cursor + 2;
    }

    /** One pass of the `getFrames` loop: stores frame i and advances the counter. */
    method FrameInto(frames: array<Frame>, i: nat)
      requires Valid() && i < frames.Length
      modifies this, frames
      ensures Valid()
      ensures (frames[i], State()) == NextFrame(old(State()))
      ensures forall k :: 0 <= k < frames.Length && k != i ==> frames[k] == old(frames[k])
    {
      if bytesRead >= dataBytes {
        frames[i] := Frame(0, 0);
        return;
      }
      NextFrameReads(State());
      var left := ReadInt16();
      bytesRead := bytesRead + 2;
      if numChannels == 1 {
        frames[i] := Frame(left, left);
      } else {
        var right := ReadInt16();
        bytesRead := bytesRead + 2;
        frames[i] := Frame(left, right);
      }
    }

    /** Fills `frames[0..n)`, leaving the rest of the array and the header fields untouched. */
    method GetFrames(frames: array<Frame>, n: int)
      requires Valid() && Count(n) <= frames.Length
      modifies this, frames
      ensures Valid()
      ensures (frames[..Count(n)], State()) == ReadFrames(old(State()), Count(n))
      ensures frames[Count(n)..] == old(frames[Count(n)..])
    {
      var i := 0;
      while i < n
        invariant 0 <= i <= Count(n)
        invariant Valid()
        invariant (frames[..i], State()) == ReadFrames(old(State()), i)
        invariant forall k :: i <= k < frames.Length ==> frames[k] == old(frames[k])
      {
        ghost var done := frames[..i];
        FrameInto(frames, i);
        assert frames[..i + 1] == done + [frames[i]];
        i := i + 1;
      }
    }
  }
}

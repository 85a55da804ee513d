/**
 * The I2S output stage: a writer task that asks the sample source for blocks
 * of 256 frames, boosts every sample by a gain of 2.5 with clamping to the
 * 16-bit range, and hands the block's bytes to the I2S peripheral, which may
 * take them in several partial writes.
 *
 * The peripheral is the class `I2SPort`: the bytes it has accepted so far and
 * the room it has left before a write would block.  A write takes any number
 * of bytes up to both the request and the room, so the model covers every
 * split of a block into partial writes the driver could make.
 */
module I2S {
  import opened Pcm
  import opened WavFile
  import opened Playlist

  /** Frames asked of the source per refill. */
  const NumFramesToSend: nat := 256

  /** Bytes per frame as the task counts them (`sizeof(uint32_t)`): two 16-bit samples. */
  const FrameSize: nat := 4

  /** Bytes of one gained block. */
  const BlockSize: nat := NumFramesToSend * FrameSize

  /** Integer division by two rounded toward zero, as a float-to-int conversion truncates. */
  function HalfTowardZero(a: int): (q: int)
    ensures a >= 0 ==> 2 * q <= a < 2 * q + 2
    ensures a < 0 ==> 2 * q - 2 < a <= 2 * q
  {
    if a >= 0 then a / 2 else -((-a) / 2)
  }

  /** Saturation to the 16-bit range. */
  function Clamp16(v: int): (y: int16)
    ensures -0x8000 <= v < 0x8000 ==> y == v
    ensures v >= 0x8000 ==> y == 0x7FFF
    ensures v < -0x8000 ==> y == -0x8000
  {
    if v > 0x7FFF then 0x7FFF else if v < -0x8000 then -0x8000 else v
  }

  /**
   * One boosted sample: `x * 2.5f` converted to `int32_t` and clamped.  Every
   * int16 times 2.5 is exact in single precision, so the product is the
   * rational 5x/2 and the conversion truncates it toward zero.
   */
  function Amplify(x: int16): (y: int16)
    ensures x >= 13107 ==> y == 0x7FFF
    ensures x <= -13108 ==> y == -0x8000
    ensures 0 <= x < 13107 ==> 2 * y <= 5 * x < 2 * y + 2
    ensures -13108 < x < 0 ==> 2 * y - 2 < 5 * x <= 2 * y
  {
    Clamp16(HalfTowardZero(5 * x))
  }

  lemma AmplifyExamples()
    ensures Amplify(20000) == 32767
    ensures Amplify(-15000) == -32768
    ensures Amplify(100) == 250
    ensures Amplify(-1) == -2
    ensures Amplify(0) == 0
  {
  }

  /** The boost never weakens a sample and never flips its sign. */
  lemma AmplifyBoosts(x: int16)
    ensures x >= 0 ==> x <= Amplify(x)
    ensures x <= 0 ==> Amplify(x) <= x
  {
  }

  /** A louder input is never boosted to a quieter output. */
  lemma AmplifyMonotone(x: int16, x': int16)
    requires x <= x'
    ensures Amplify(x) <= Amplify(x')
  {
  }

  /** Both channels boosted independently. */
  function GainFrame(f: Frame): (g: Frame)
    ensures g == Silence <==> f == Silence
    ensures f.left == f.right ==> g.left == g.right
  {
    Frame(Amplify(f.left), Amplify(f.right))
  }

  /** A block after the gain loop. */
  function Gained(s: seq<Frame>): (g: seq<Frame>)
    ensures |g| == |s|
    ensures forall i :: 0 <= i < |s| ==> (g[i] == Silence <==> s[i] == Silence)
  {
    seq(|s|, i requires 0 <= i < |s| => GainFrame(s[i]))
  }

  /** The gain works frame by frame: boosting two blocks is boosting their concatenation. */
  lemma GainedSplit(a: seq<Frame>, b: seq<Frame>)
    ensures Gained(a + b) == Gained(a) + Gained(b)
  {
  }

  /**
   * The gain loop over the task's buffer, in place: frame i is replaced by
   * its boosted left and right samples.
   */
  method ApplyGain(frames: array<Frame>)
    requires frames.Length == NumFramesToSend
    modifies frames
    ensures frames[..] == Gained(old(frames[..]))
  {
    ghost var input := frames[..];
    for i := 0 to NumFramesToSend
      invariant frames[..i] == Gained(input)[..i]
      invariant frames[i..] == input[i..]
    {
      var left := Amplify(frames[i].left);
      var right := Amplify(frames[i].right);
      assert frames[i] == input[i];
      frames[i] := Frame(left, right);
      assert frames[..i + 1] == frames[..i] + [frames[i]];
      assert frames[i + 1..] == input[i + 1..];
    }
    assert frames[..] == frames[..NumFramesToSend];
  }

  /** The bytes memory holds for one frame: left sample then right sample, each little-endian. */
  function FrameBytes(f: Frame): (bs: seq<byte>)
    ensures |bs| == FrameSize
  {
    Int16Bytes(f.left) + Int16Bytes(f.right)
  }

  /** The byte image of a frame buffer, which the task hands to the peripheral through a byte pointer. */
  function ToBytes(s: seq<Frame>): (bs: seq<byte>)
    ensures |bs| == FrameSize * |s|
  {
    if s == [] then [] else FrameBytes(s[0]) + ToBytes(s[1..])
  }

  /** The frames a byte image holds, four bytes at a time. */
  function FromBytes(bs: seq<byte>): (s: seq<Frame>)
    requires |bs| % FrameSize == 0
    ensures |s| == |bs| / FrameSize
  {
    if bs == [] then [] else [Frame(Int16At(bs, 0), Int16At(bs, 2))] + FromBytes(bs[FrameSize..])
  }

  /** The byte image loses nothing: the frames can be read back from it. */
  lemma {:induction false} FromToBytes(s: seq<Frame>)
    ensures FromBytes(ToBytes(s)) == s
  {
    if s != [] {
      var bs := ToBytes(s);
      var l, r := Int16Bytes(s[0].left), Int16Bytes(s[0].right);
      assert bs == l + r + ToBytes(s[1..]);
      assert Int16At(bs, 0) == Int16At(l, 0);
      assert Int16At(bs, 2) == Int16At(r, 0);
      assert bs[FrameSize..] == ToBytes(s[1..]);
      FromToBytes(s[1..]);
    }
  }

  /** The byte image of two blocks is the two images one after the other. */
  lemma {:induction false} ToBytesSplit(a: seq<Frame>, b: seq<Frame>)
    ensures ToBytes(a + b) == ToBytes(a) + ToBytes(b)
  {
    if a != [] {
      assert (a + b)[1..] == a[1..] + b;
      ToBytesSplit(a[1..], b);
    } else {
      assert a + b == b;
    }
  }

  /** The I2S peripheral: the bytes it has taken so far and the room its DMA buffers have left. */
  class I2SPort {
    var accepted: seq<byte>
    var room: nat

    constructor (room: nat)
      ensures accepted == [] && this.room == room
    {
      accepted := [];
      this.room := room;
    }

    /** `i2s_write`: takes a prefix of `data` that fits in the room left and reports its length. */
    method Write(data: seq<byte>) returns (written: nat)
      modifies this
      ensures written <= |data| && written <= old(room)
      ensures accepted == old(accepted) + data[..written]
      ensures room == old(room) - written
    {
      written :| written <= |data| && written <= room;
      accepted := accepted + data[..written];
      room := room - written;
    }
  }

  /** `a[..i] + a[i..i + w] == a[..i + w]`, at the offset the task writes from. */
  lemma SendsNextSlice(stream: seq<byte>, block: seq<byte>, pos: nat, w: nat)
    requires |block| <= |stream| && stream[|stream| - |block|..] == block
    requires pos + w <= |block|
    ensures stream[..|stream| - |block| + pos] + block[pos..][..w] == stream[..|stream| - |block| + pos + w]
  {
    var base := |stream| - |block|;
    assert block[pos..][..w] == stream[base + pos..base + pos + w];
  }

  /**
   * The task's byte bookkeeping, on values: before the first refill nothing
   * is buffered; after it, `availableBytes + buffer_position` is the block
   * size, the buffer holds the last block of the stream, and the peripheral
   * has taken exactly the stream minus the bytes still available.
   */
  ghost predicate Buffers(buffer: seq<Frame>, available: int, position: int, k: nat,
                          stream: seq<byte>, accepted: seq<byte>, before: seq<byte>)
  {
    && |buffer| == NumFramesToSend
    && 0 <= available && 0 <= position
    && (k == 0 ==> available == 0 && position == 0 && stream == [])
    && (k > 0 ==>
          && available + position == BlockSize
          && BlockSize <= |stream|
          && stream[|stream| - BlockSize..] == ToBytes(buffer))
    && available <= |stream|
    && accepted == before + stream[..|stream| - available]
  }

  /**
   * A refill, once the previous block is handed off completely, appends the
   * new block to the stream and makes all of it available.
   */
  lemma RefillBuffers(previous: seq<Frame>, position: int, k: nat, stream: seq<byte>,
                      accepted: seq<byte>, before: seq<byte>, buffer: seq<Frame>)
    requires Buffers(previous, 0, position, k, stream, accepted, before)
    requires |buffer| == NumFramesToSend
    ensures Buffers(buffer, BlockSize, 0, k + 1, stream + ToBytes(buffer), accepted, before)
  {
    var block := ToBytes(buffer);
    assert stream[..|stream|] == stream;
    assert (stream + block)[..|stream|] == stream;
    assert (stream + block)[|stream|..] == block;
  }

  /** A write of w of the available bytes moves w bytes of the block, in order, to the peripheral. */
  lemma SendBuffers(buffer: seq<Frame>, available: int, position: int, k: nat, stream: seq<byte>,
                    accepted: seq<byte>, before: seq<byte>, w: nat)
    requires Buffers(buffer, available, position, k, stream, accepted, before)
    requires available > 0 && w <= available
    ensures Buffers(buffer, available - w, position + w, k, stream,
                    accepted + ToBytes(buffer)[position..][..w], before)
  {
    SendsNextSlice(stream, ToBytes(buffer), position, w);
  }

  /** The bytes of the first k blocks a playlist hands out from state p, boosted, in order. */
  ghost function GainedStream(rs: seq<Reader>, p: PlaylistState, k: nat): seq<byte>
  {
    ToBytes(Gained(Played(rs, p, NumFramesToSend, k)))
  }

  /**
   * The task's record of its source: `EmittedAt` for k.  The quantifier over
   * the single value k is only there to steer the solver: its one trigger is
   * `EmittedAt` itself, so the run functions are unfolded only in the proofs
   * that name `EmittedAt`, not in every method that merely carries the record.
   */
  ghost predicate Emitted(rs: seq<Reader>, start: PlaylistState, k: nat, at: PlaylistState, stream: seq<byte>)
  {
    forall j: nat :: j == k ==> EmittedAt(rs, start, j, at, stream)
  }

  /** k blocks served from `start` leave the playlist at `at`, and `stream` holds their boosted bytes. */
  ghost predicate EmittedAt(rs: seq<Reader>, start: PlaylistState, k: nat, at: PlaylistState, stream: seq<byte>)
  {
    at == After(rs, start, NumFramesToSend, k) && stream == GainedStream(rs, start, k)
  }

  /** The source is consistent and stands at `at`. */
  ghost predicate Serving(source: PlaylistSampleSource, at: PlaylistState)
    reads source, source.current
  {
    source.PathsOpenToReaders() && source.Valid() && source.State() == at
  }

  /** One more refill appends the boosted bytes of the block the playlist serves next. */
  lemma RefillExtends(rs: seq<Reader>, start: PlaylistState, k: nat)
    ensures var q := After(rs, start, NumFramesToSend, k);
      && GainedStream(rs, start, k + 1)
         == GainedStream(rs, start, k) + ToBytes(Gained(PlaylistFrames(rs, q, NumFramesToSend).0))
      && After(rs, start, NumFramesToSend, k + 1) == PlaylistFrames(rs, q, NumFramesToSend).1
  {
    var q := After(rs, start, NumFramesToSend, k);
    var block := PlaylistFrames(rs, q, NumFramesToSend).0;
    PlayedSplit(rs, start, NumFramesToSend, k, 1);
    AfterSplit(rs, start, NumFramesToSend, k, 1);
    PlayedStep(rs, q, NumFramesToSend, 1);
    assert Played(rs, q, NumFramesToSend, 1) == block;
    GainedSplit(Played(rs, start, NumFramesToSend, k), block);
    ToBytesSplit(Gained(Played(rs, start, NumFramesToSend, k)), Gained(block));
  }

  /** What a refill adds to the task's record, stated on values. */
  lemma StreamGrows(rs: seq<Reader>, start: PlaylistState, k: nat, at: PlaylistState,
                    stream: seq<byte>, raw: seq<Frame>, gained: seq<Frame>)
    requires Emitted(rs, start, k, at, stream)
    requires raw == PlaylistFrames(rs, at, NumFramesToSend).0 && gained == Gained(raw)
    ensures Emitted(rs, start, k + 1, PlaylistFrames(rs, at, NumFramesToSend).1, stream + ToBytes(gained))
  {
    assert EmittedAt(rs, start, k, at, stream);
    RefillExtends(rs, start, k);
    assert EmittedAt(rs, start, k + 1, PlaylistFrames(rs, at, NumFramesToSend).1, stream + ToBytes(gained));
  }

  /**
   * The refill branch of the task, on its state passed as values: the next
   * block from the source into the buffer, then the gain loop over it.  The
   * boosted block extends the task's record, and all of it becomes
   * available.
   */
  method RefillBlock(source: PlaylistSampleSource, frames: array<Frame>, ghost start: PlaylistState,
                     ghost before: seq<byte>, ghost accepted: seq<byte>, ghost k: nat,
                     ghost at: PlaylistState, ghost stream: seq<byte>, ghost position: int)
    returns (ghost at': PlaylistState, ghost stream': seq<byte>)
    requires frames.Length == NumFramesToSend
    requires Serving(source, at) && Emitted(source.readers, start, k, at, stream)
    requires Buffers(frames[..], 0, position, k, stream, accepted, before)
    modifies source, source.current, frames
    ensures Serving(source, at') && Emitted(source.readers, start, k + 1, at', stream')
    ensures Buffers(frames[..], BlockSize, 0, k + 1, stream', accepted, before)
    ensures stream' == stream + ToBytes(frames[..])
    ensures source.current == null || source.current == old(source.current) || fresh(source.current)
  {
    ghost var buffer := frames[..];
    source.GetFrames(frames, NumFramesToSend);
    ghost var raw := frames[..];
    assert raw == frames[..Count(NumFramesToSend)];
    ApplyGain(frames);
    StreamGrows(source.readers, start, k, at, stream, raw, frames[..]);
    RefillBuffers(buffer, position, k, stream, accepted, before, frames[..]);
    at', stream' := source.State(), stream + ToBytes(frames[..]);
  }

  /**
   * The state of `i2sWriterTask`: its 256-frame buffer, `availableBytes` and
   * `buffer_position`.  Ghost state records where the source stood when the
   * task started, how many blocks it has fetched since and their boosted
   * bytes, so that what the peripheral has taken can be stated as a prefix of
   * that stream.
   */
  class WriterTask {
    const source: PlaylistSampleSource
    const port: I2SPort
    const frames: array<Frame>
    var availableBytes: int
    var bufferPosition: int
    /** The source's state when the task started. */
    ghost const start: PlaylistState
    /** What the peripheral had taken before the task started. */
    ghost const before: seq<byte>
    /** Blocks fetched from the source so far. */
    ghost var fetched: nat
    /** The boosted bytes of those blocks, in order. */
    ghost var stream: seq<byte>
    /** Where the source stands after them. */
    ghost var at: PlaylistState

    ghost predicate Buffered()
      reads this, port, frames
    {
      Buffers(frames[..], availableBytes, bufferPosition, fetched, stream, port.accepted, before)
    }

    ghost predicate Valid()
      reads this, port, frames, source, source.current
    {
      Buffered() && Serving(source, at) && Emitted(source.readers, start, fetched, at, stream)
    }

    /** The task's start: an empty block, nothing fetched or written yet. */
    constructor (source: PlaylistSampleSource, port: I2SPort)
      requires source.PathsOpenToReaders() && source.Valid()
      ensures Valid() && fresh(frames)
      ensures this.source == source && this.port == port
      ensures start == source.State() && before == port.accepted && fetched == 0
      ensures availableBytes == 0 && bufferPosition == 0
    {
      this.source := source;
      this.port := port;
      frames := new Frame[NumFramesToSend](_ => Silence);
      availableBytes := 0;
      bufferPosition := 0;
      start := source.State();
      before := port.accepted;
      fetched := 0;
      stream := [];
      at := start;
    }

    /**
     * Refill: one block of 256 frames from the source, then the gain loop, then
     * `availableBytes = 1024` and `buffer_position = 0`.  Only called with the
     * previous block handed off completely.
     */
    method Refill()
      requires Valid() && availableBytes == 0
      modifies this, source, source.current, frames
      ensures Valid()
      ensures availableBytes == BlockSize && bufferPosition == 0 && fetched == old(fetched) + 1
      ensures stream == old(stream) + ToBytes(frames[..]) && port.accepted == old(port.accepted)
      ensures source.current == null || source.current == old(source.current) || fresh(source.current)
    {
      ghost var at', stream' :=
        RefillBlock(source, frames, start, before, port.accepted, fetched, at, stream, bufferPosition);
      availableBytes, bufferPosition := BlockSize, 0;
      fetched, stream, at := fetched + 1, stream', at';
    }

    /** One `i2s_write` of the rest of the block, from `buffer_position` on. */
    method Send() returns (written: nat)
      requires Buffered() && availableBytes > 0
      modifies port, this
      ensures Buffered() && fetched == old(fetched) && stream == old(stream) && at == old(at)
      ensures written <= old(availableBytes) && written <= old(port.room)
      ensures availableBytes == old(availableBytes) - written && bufferPosition == old(bufferPosition) + written
      ensures port.room == old(port.room) - written
      ensures port.accepted == old(port.accepted) + ToBytes(frames[..])[old(bufferPosition)..][..written]
    {
      var data := ToBytes(frames[..])[bufferPosition..];
      written := port.Write(data);
      SendBuffers(frames[..], availableBytes, bufferPosition, fetched, stream, old(port.accepted), before, written);
      availableBytes := availableBytes - written;
      bufferPosition := bufferPosition + written;
    }

    /**
     * One pass of the `do … while` body: refill when the block is used up,
     * then write what is left of it.  A refill leaves a whole block
     * available, so every pass writes.
     */
    method Step() returns (bytesWritten: nat)
      requires Valid()
      modifies this, port, source, source.current, frames
      ensures Valid()
      ensures port.room == old(port.room) - bytesWritten
      ensures old(availableBytes) == 0 ==>
        && fetched == old(fetched) + 1 && stream == old(stream) + ToBytes(frames[..])
        && availableBytes == BlockSize - bytesWritten && bufferPosition == bytesWritten
      ensures old(availableBytes) > 0 ==>
        && fetched == old(fetched) && stream == old(stream)
        && availableBytes == old(availableBytes) - bytesWritten
        && bufferPosition == old(bufferPosition) + bytesWritten
      ensures old(fetched) <= fetched && old(stream) <= stream && old(port.accepted) <= port.accepted
      ensures source.current == null || source.current == old(source.current) || fresh(source.current)
    {
      if availableBytes == 0 {
        Refill();
      }
      bytesWritten := Send();
    }

    /**
     * The handling of one transmit-done event: passes of `Step` until a write
     * takes nothing, that is until the peripheral's buffers are full.
     */
    method OnTxDone() returns (bytesWritten: nat)
      requires Valid()
      modifies this, port, source, source.current, frames
      ensures Valid() && bytesWritten == 0
      ensures old(fetched) <= fetched && old(stream) <= stream && old(port.accepted) <= port.accepted
    {
      bytesWritten := Step();
      while bytesWritten > 0
        invariant Valid()
        invariant old(fetched) <= fetched && old(stream) <= stream && old(port.accepted) <= port.accepted
        invariant source.current == null || source.current == old(source.current) || fresh(source.current)
        decreases port.room + if bytesWritten > 0 then 1 else 0
      {
        bytesWritten := Step();
      }
    }
  }

  /**
   * `I2SOutput`: the sample source and the port the task writes to.  Driver
   * installation is a parameter: when it fails, `start` returns before
   * creating the task.
   */
  class I2SOutput {
    var sampleGenerator: PlaylistSampleSource?
    var port: I2SPort?

    constructor ()
      ensures sampleGenerator == null && port == null
    {
      sampleGenerator := null;
      port := null;
    }

    /**
     * `start`: keeps the source and the port, configures the driver at the
     * source's `sampleRate()`, and when the driver installs starts the writer
     * task on a fresh, empty block.
     */
    method Start(port: I2SPort, source: PlaylistSampleSource, driverInstalled: bool)
      returns (rate: int, task: WriterTask?)
      requires source.PathsOpenToReaders() && source.Valid()
      modifies this
      ensures sampleGenerator == source && this.port == port
      ensures rate == Rate(source.State())
      ensures driverInstalled <==> task != null
      ensures task != null ==>
        && fresh(task) && task.Valid() && task.source == source && task.port == port
        && task.start == source.State() && task.fetched == 0
    {
      sampleGenerator := source;
      rate := source.SampleRate();
      this.port := port;
      if !driverInstalled {
        return rate, null;
      }
      task := new WriterTask(source, port);
    }
  }
}

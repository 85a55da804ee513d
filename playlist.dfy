/**
 * The playlist chainer: a fixed list of paths, an index and one owned reader
 * slot.  Each `getFrames` call is handed to the current reader once for the
 * whole block; if that reader reports finished afterwards, the slot is
 * emptied and the next path (if any) is opened for the following calls.  A
 * block is therefore never split between two files: the tail of the block in
 * which a file ends is that file's silence padding.  With no reader left the
 * playlist emits silence forever.
 *
 * `PlaylistState` is the playlist's state as a value and `PlaylistFrames` the
 * meaning of one call; the class `PlaylistSampleSource` is proved to do what
 * `PlaylistFrames` says.
 */
module Playlist {
  import opened Pcm
  import opened WavFormat
  import opened WavFile

  /** Every path of the list exists and holds a file the decoder can read to the end. */
  ghost predicate AllPlayable(fs: FileSystem, files: seq<string>)
  {
    forall i :: 0 <= i < |files| ==> files[i] in fs && Playable(fs[files[i]])
  }

  /**
   * Readers as opened, none read from yet.  The playlist is reasoned about over
   * the list of readers its paths open to, so that header decoding stays out
   * of the playlist's own proofs.
   */
  ghost predicate Unread(rs: seq<Reader>)
  {
    forall i :: 0 <= i < |rs| ==> UnreadAt(rs, i)
  }

  /** Reader i of the list is as opened. */
  ghost predicate UnreadAt(rs: seq<Reader>, i: int)
  {
    0 <= i < |rs| && rs[i].Valid() && rs[i].bytesRead == 0
  }

  /** The reader each path of the list opens to, in list order. */
  function Readers(fs: FileSystem, files: seq<string>): (rs: seq<Reader>)
    requires AllPlayable(fs, files)
    ensures |rs| == |files| && Unread(rs)
    ensures forall i :: 0 <= i < |files| ==> rs[i] == Open(fs[files[i]])
  {
    seq(|files|, i requires 0 <= i < |files| && AllPlayable(fs, files) => Open(fs[files[i]]))
  }

  /** Path i exists, is playable and opens to reader i. */
  ghost predicate Opens(fs: FileSystem, files: seq<string>, rs: seq<Reader>, i: nat)
  {
    && i < |files| && i < |rs|
    && files[i] in fs && Playable(fs[files[i]])
    && rs[i] == Open(fs[files[i]])
  }

  /** `m_index` and the `m_current` slot (None for `nullptr`). */
  datatype PlaylistState = PlaylistState(index: nat, current: Option<Reader>)

  /**
   * The playlist's invariant: the index stays within the list, an empty slot
   * means the list is used up, and a reader in the slot reads the file at
   * `index - 1`.
   */
  ghost predicate Inv(rs: seq<Reader>, p: PlaylistState)
  {
    && Unread(rs)
    && p.index <= |rs|
    && (p.current.None? ==> p.index == |rs|)
    && (p.current.Some? ==>
          && 1 <= p.index
          && p.current.value.Valid()
          && SameFile(p.current.value, rs[p.index - 1]))
  }

  /** The state `openNext()` leaves: the current reader dropped, then the file at `index++` opened if there is one. */
  function OpenAt(rs: seq<Reader>, index: nat): (p: PlaylistState)
    ensures p.current.Some? <==> index < |rs|
    ensures index < |rs| ==> p.index == index + 1 && p.current.value == rs[index]
    ensures index >= |rs| ==> p.index == index
  {
    if index < |rs| then PlaylistState(index + 1, Some(rs[index]))
    else PlaylistState(index, None)
  }

  /** Opening the next path keeps the invariant, and only the list's end empties the slot. */
  lemma OpenAtInv(rs: seq<Reader>, index: nat)
    requires Unread(rs) && index <= |rs|
    ensures Inv(rs, OpenAt(rs, index))
    ensures OpenAt(rs, index).current.None? <==> index == |rs|
  {
    if index < |rs| {
      assert UnreadAt(rs, index);
    }
  }

  /** The state the constructor leaves: the first file open, or an empty slot for an empty list. */
  function Start(rs: seq<Reader>): (p: PlaylistState)
    requires Unread(rs)
    ensures Inv(rs, p)
    ensures |rs| > 0 ==> p == PlaylistState(1, Some(rs[0]))
    ensures |rs| == 0 ==> p == PlaylistState(0, None)
  {
    OpenAtInv(rs, 0);
    OpenAt(rs, 0)
  }

  /** `sampleRate()`: the current reader's header rate, 0 with an empty slot. */
  function Rate(p: PlaylistState): int
  {
    if p.current.None? then 0 else p.current.value.sampleRate
  }

  /** The playlist's rate is the rate in the header of the file it is playing, 0 once the list is used up. */
  lemma RateIsHeaderRate(fs: FileSystem, files: seq<string>, rs: seq<Reader>, p: PlaylistState)
    requires Inv(rs, p) && |rs| == |files|
    requires forall i :: 0 <= i < |files| ==> Opens(fs, files, rs, i)
    ensures p.current.Some? ==> 1 <= p.index && Opens(fs, files, rs, p.index - 1)
    ensures p.current.Some? ==> Rate(p) == DecodeHeader(fs[files[p.index - 1]]).sampleRate
    ensures p.current.None? ==> p.index == |files| && Rate(p) == 0
  {
    if p.current.Some? {
      assert Opens(fs, files, rs, p.index - 1);
    }
  }

  /**
   * The block a reader in the slot hands out.  `Inv` admits only valid readers
   * to the slot, so the second branch is never taken from a reachable state;
   * it only makes the call total, which keeps `PlaylistFrames` and the
   * functions over runs of calls free of preconditions.
   */
  ghost function Serve(r: Reader, n: nat): (res: (seq<Frame>, Reader))
    ensures |res.0| == n
  {
    if r.Valid() then Block(r, n) else (SilenceBlock(n), r)
  }

  /** One `getFrames(frames, n)` call: the frames stored in `frames[0..n)` and the state after. */
  ghost function PlaylistFrames(rs: seq<Reader>, p: PlaylistState, n: int): (res: (seq<Frame>, PlaylistState))
    ensures |res.0| == Count(n)
  {
    match p.current
    case None => (SilenceBlock(Count(n)), p)
    case Some(r) =>
      if n <= 0 then ([], p)
      else
        var next := Serve(r, n);
        if next.1.Finished() then (next.0, OpenAt(rs, p.index))
        else (next.0, PlaylistState(p.index, Some(next.1)))
  }

  /** Every call keeps the invariant. */
  lemma FramesKeepInv(rs: seq<Reader>, p: PlaylistState, n: int)
    requires Inv(rs, p)
    ensures Inv(rs, PlaylistFrames(rs, p, n).1)
  {
    if p.current.Some? && n > 0 {
      var r := p.current.value;
      var next := Block(r, n).1;
      if next.Finished() {
        OpenAtInv(rs, p.index);
      } else {
        assert SameFile(next, rs[p.index - 1]);
      }
    }
  }

  /**
   * One call moves the index forward by at most one, and only when the reader
   * that served the block reports finished afterwards; the slot is emptied only
   * then too.  A reader left in the slot is the same file, further on.
   */
  lemma GetFramesAdvancesOnce(rs: seq<Reader>, p: PlaylistState, n: int)
    requires Inv(rs, p)
    ensures var q := PlaylistFrames(rs, p, n).1;
      && p.index <= q.index <= p.index + 1
      && (q.index == p.index + 1 ==>
            && p.current.Some? && n > 0 && Block(p.current.value, n).1.Finished()
            && q.current == Some(rs[p.index]))
      && (q.current.None? ==> p.current.None? || Block(p.current.value, n).1.Finished())
      && (q.current.Some? && q.index == p.index ==>
            p.current.Some? && SameFile(p.current.value, q.current.value)
            && p.current.value.bytesRead <= q.current.value.bytesRead)
  {
  }

  /**
   * With a reader in the slot and a positive count, the block is exactly that
   * reader's block: frame j is its j-th frame, audio while its data lasts and
   * silence after it, never the next file's audio.
   */
  lemma BlockComesFromOneFile(rs: seq<Reader>, p: PlaylistState, n: int)
    requires Inv(rs, p) && p.current.Some? && n > 0
    ensures PlaylistFrames(rs, p, n).0 == ReadFrames(p.current.value, n).0
    ensures forall j :: 0 <= j < n ==> PlaylistFrames(rs, p, n).0[j] == FrameAt(p.current.value, j)
  {
    BlockIsReadFrames(p.current.value, n);
  }

  /** The state after `k` successive calls of `n` frames each. */
  ghost function After(rs: seq<Reader>, p: PlaylistState, n: int, k: nat): PlaylistState
    decreases k
  {
    if k == 0 then p else After(rs, PlaylistFrames(rs, p, n).1, n, k - 1)
  }

  /** The audio those `k` calls hand out, block after block. */
  ghost function Played(rs: seq<Reader>, p: PlaylistState, n: int, k: nat): seq<Frame>
    decreases k
  {
    if k == 0 then []
    else
      var step := PlaylistFrames(rs, p, n);
      step.0 + Played(rs, step.1, n, k - 1)
  }

  /** a + b calls end where b calls end after the first a. */
  lemma {:induction false} AfterSplit(rs: seq<Reader>, p: PlaylistState, n: int, a: nat, b: nat)
    ensures After(rs, p, n, a + b) == After(rs, After(rs, p, n, a), n, b)
    decreases a
  {
    if a > 0 {
      var q := PlaylistFrames(rs, p, n).1;
      AfterSplit(rs, q, n, a - 1, b);
      assert a + b - 1 == (a - 1) + b;
    }
  }

  /** a + b calls hand out the audio of the first a followed by that of the next b. */
  lemma {:induction false} PlayedSplit(rs: seq<Reader>, p: PlaylistState, n: int, a: nat, b: nat)
    ensures Played(rs, p, n, a + b) == Played(rs, p, n, a) + Played(rs, After(rs, p, n, a), n, b)
    decreases a
  {
    if a > 0 {
      var step := PlaylistFrames(rs, p, n);
      PlayedSplit(rs, step.1, n, a - 1, b);
      assert a + b - 1 == (a - 1) + b;
      assert step.0 + (Played(rs, step.1, n, a - 1) + Played(rs, After(rs, step.1, n, a - 1), n, b))
        == (step.0 + Played(rs, step.1, n, a - 1)) + Played(rs, After(rs, step.1, n, a - 1), n, b);
    }
  }

  /** Once the list is used up, every later frame is silence and the state never changes. */
  lemma {:induction false} ExhaustedStaysSilent(rs: seq<Reader>, p: PlaylistState, n: int, k: nat)
    requires p.current.None?
    ensures After(rs, p, n, k) == p
    ensures Played(rs, p, n, k) == SilenceBlock(k * Count(n))
  {
    if k > 0 {
      ExhaustedStaysSilent(rs, p, n, k - 1);
      assert SilenceBlock(k * Count(n)) == SilenceBlock(Count(n)) + SilenceBlock((k - 1) * Count(n));
    }
  }

  /** An unfinished reader moves forward on every block of at least one frame. */
  lemma BlockMakesProgress(r: Reader, n: nat)
    requires r.Valid() && !r.Finished() && n > 0
    ensures Block(r, n).1.bytesRead > r.bytesRead
  {
    AdvancedIsBounded(r, n);
  }

  /** How many blocks of n frames a reader serves before it reports finished (at least one). */
  function BlocksToFinish(r: Reader, n: nat): (k: nat)
    requires r.Valid() && n > 0
    ensures k >= 1
    decreases RoundUp(r.dataBytes, r.Step()) - r.bytesRead
  {
    var r' := Block(r, n).1;
    if r'.Finished() then 1
    else
      BlockMakesProgress(r, n);
      1 + BlocksToFinish(r', n)
  }

  /** The frames those blocks hold together: the reader's audio and its padding. */
  function FramesToFinish(r: Reader, n: nat): (m: nat)
    requires r.Valid() && n > 0
    ensures m >= n
    decreases RoundUp(r.dataBytes, r.Step()) - r.bytesRead
  {
    var r' := Block(r, n).1;
    if r'.Finished() then n
    else
      BlockMakesProgress(r, n);
      n + FramesToFinish(r', n)
  }

  /** A file in the slot is served for `BlocksToFinish` calls, after which the next file is open. */
  lemma {:induction false} FileEnds(rs: seq<Reader>, p: PlaylistState, n: nat)
    requires p.current.Some? && p.current.value.Valid() && n > 0
    ensures After(rs, p, n, BlocksToFinish(p.current.value, n)) == OpenAt(rs, p.index)
    decreases RoundUp(p.current.value.dataBytes, p.current.value.Step()) - p.current.value.bytesRead
  {
    var r := p.current.value;
    var r' := Block(r, n).1;
    PlayedStep(rs, p, n, BlocksToFinish(r, n));
    ServeBlock(rs, p, n);
    if !r'.Finished() {
      BlockMakesProgress(r, n);
      FileEnds(rs, PlaylistState(p.index, Some(r')), n);
    }
  }

  /**
   * A file in the slot plays to its end with nothing dropped or repeated: the
   * blocks it serves are its own frames, padded with silence up to the end of
   * the block in which it finishes.
   */
  lemma {:induction false} FilePlaysWhole(rs: seq<Reader>, p: PlaylistState, n: nat)
    requires p.current.Some? && p.current.value.Valid() && n > 0
    ensures Played(rs, p, n, BlocksToFinish(p.current.value, n)) == Block(p.current.value, FramesToFinish(p.current.value, n)).0
    decreases RoundUp(p.current.value.dataBytes, p.current.value.Step()) - p.current.value.bytesRead
  {
    var r := p.current.value;
    var r' := Block(r, n).1;
    PlayedStep(rs, p, n, BlocksToFinish(r, n));
    ServeBlock(rs, p, n);
    if !r'.Finished() {
      BlockMakesProgress(r, n);
      FilePlaysWhole(rs, PlaylistState(p.index, Some(r')), n);
      BlockSplit(r, n, FramesToFinish(r', n));
    }
  }

  /** The first of k > 0 calls, and the k - 1 after it. */
  lemma PlayedStep(rs: seq<Reader>, p: PlaylistState, n: int, k: nat)
    requires k > 0
    ensures Played(rs, p, n, k) == PlaylistFrames(rs, p, n).0 + Played(rs, PlaylistFrames(rs, p, n).1, n, k - 1)
    ensures After(rs, p, n, k) == After(rs, PlaylistFrames(rs, p, n).1, n, k - 1)
  {
  }

  /** A call with a reader in the slot, spelled out: its block, then the same reader or the next file. */
  lemma ServeBlock(rs: seq<Reader>, p: PlaylistState, n: nat)
    requires p.current.Some? && p.current.value.Valid() && n > 0
    ensures PlaylistFrames(rs, p, n).0 == Block(p.current.value, n).0
    ensures Block(p.current.value, n).1.Finished() ==> PlaylistFrames(rs, p, n).1 == OpenAt(rs, p.index)
    ensures !Block(p.current.value, n).1.Finished() ==>
      PlaylistFrames(rs, p, n).1 == PlaylistState(p.index, Some(Block(p.current.value, n).1))
  {
  }

  /** Blocks the files from index i on take, each playing to its end. */
  function TotalBlocks(rs: seq<Reader>, i: nat, n: nat): nat
    requires Unread(rs) && i <= |rs| && n > 0
    decreases |rs| - i
  {
    if i == |rs| then 0
    else
      assert UnreadAt(rs, i);
      BlocksToFinish(rs[i], n) + TotalBlocks(rs, i + 1, n)
  }

  /** The files from index i on, each padded with silence to a whole number of blocks. */
  function PaddedAudio(rs: seq<Reader>, i: nat, n: nat): seq<Frame>
    requires Unread(rs) && i <= |rs| && n > 0
    decreases |rs| - i
  {
    if i == |rs| then []
    else
      assert UnreadAt(rs, i);
      var r := rs[i];
      Block(r, FramesToFinish(r, n)).0 + PaddedAudio(rs, i + 1, n)
  }

  /** Opened at file i, the playlist serves that file's blocks and is then opened at file i + 1. */
  lemma OneFileThenRest(rs: seq<Reader>, i: nat, n: nat, b: nat)
    requires Unread(rs) && i < |rs| && n > 0
    ensures UnreadAt(rs, i)
    ensures After(rs, OpenAt(rs, i), n, BlocksToFinish(rs[i], n) + b) == After(rs, OpenAt(rs, i + 1), n, b)
  {
    assert UnreadAt(rs, i);
    var p := OpenAt(rs, i);
    FileEnds(rs, p, n);
    AfterSplit(rs, p, n, BlocksToFinish(rs[i], n), b);
  }

  /** What those calls hand out: file i whole and padded, then what the calls from file i + 1 hand out. */
  lemma OneFileThenRestPlayed(rs: seq<Reader>, i: nat, n: nat, b: nat)
    requires Unread(rs) && i < |rs| && n > 0
    ensures UnreadAt(rs, i)
    ensures Played(rs, OpenAt(rs, i), n, BlocksToFinish(rs[i], n) + b)
      == Block(rs[i], FramesToFinish(rs[i], n)).0 + Played(rs, OpenAt(rs, i + 1), n, b)
  {
    assert UnreadAt(rs, i);
    var p := OpenAt(rs, i);
    var a := BlocksToFinish(rs[i], n);
    FileEnds(rs, p, n);
    FilePlaysWhole(rs, p, n);
    PlayedSplit(rs, p, n, a, b);
  }

  /** Opened at file i and served `TotalBlocks` calls, the playlist ends used up. */
  lemma {:induction false} ListEnds(rs: seq<Reader>, i: nat, n: nat)
    requires Unread(rs) && i <= |rs| && n > 0
    ensures After(rs, OpenAt(rs, i), n, TotalBlocks(rs, i, n)) == PlaylistState(|rs|, None)
    decreases |rs| - i
  {
    if i < |rs| {
      OneFileThenRest(rs, i, n, TotalBlocks(rs, i + 1, n));
      ListEnds(rs, i + 1, n);
    }
  }

  /** `TotalBlocks` and `PaddedAudio` take file i first, then the files after it. */
  lemma FirstFileThenRest(rs: seq<Reader>, i: nat, n: nat)
    requires Unread(rs) && i < |rs| && n > 0
    ensures UnreadAt(rs, i)
    ensures TotalBlocks(rs, i, n) == BlocksToFinish(rs[i], n) + TotalBlocks(rs, i + 1, n)
    ensures PaddedAudio(rs, i, n) == Block(rs[i], FramesToFinish(rs[i], n)).0 + PaddedAudio(rs, i + 1, n)
  {
    assert UnreadAt(rs, i);
  }

  /**
   * The whole playlist: opened at file i and asked for blocks of n frames, it
   * plays every file from i on in list order, each in full and padded to the
   * block boundary (and `ListEnds` then finds the list used up).
   */
  lemma {:induction false} PlaysFilesInOrder(rs: seq<Reader>, i: nat, n: nat)
    requires Unread(rs) && i <= |rs| && n > 0
    ensures Played(rs, OpenAt(rs, i), n, TotalBlocks(rs, i, n)) == PaddedAudio(rs, i, n)
    decreases |rs| - i
  {
    if i < |rs| {
      assert UnreadAt(rs, i);
      var a, b := BlocksToFinish(rs[i], n), TotalBlocks(rs, i + 1, n);
      var head := Block(rs[i], FramesToFinish(rs[i], n)).0;
      assert TotalBlocks(rs, i, n) == a + b && PaddedAudio(rs, i, n) == head + PaddedAudio(rs, i + 1, n) by {
        FirstFileThenRest(rs, i, n);
      }
      assert Played(rs, OpenAt(rs, i), n, a + b) == head + Played(rs, OpenAt(rs, i + 1), n, b) by {
        OneFileThenRestPlayed(rs, i, n, b);
      }
      PlaysFilesInOrder(rs, i + 1, n);
    }
  }

  /**
   * `PlaylistSampleSource`: the copied path list, the index and the single
   * reader slot.  The slot being one field, at most one reader is ever held;
   * in the code only the constructor and `GetFrames` call `OpenNext`.
   */
  class PlaylistSampleSource {
    const fs: FileSystem
    const files: seq<string>
    /** The readers the paths open to; fixed with the path list. */
    ghost const readers: seq<Reader>
    var index: nat
    var current: WavFileReader?

    ghost function State(): PlaylistState
      reads this, current
    {
      PlaylistState(index, if current == null then None else Some(current.State()))
    }

    /** The path list and the readers it opens to, both fixed at construction. */
    ghost predicate PathsOpenToReaders()
    {
      && |readers| == |files| && Unread(readers)
      && forall i :: 0 <= i < |files| ==> Opens(fs, files, readers, i)
    }

    ghost predicate Valid()
      reads this, current
    {
      (current != null ==> current.Valid()) && Inv(readers, State())
    }

    constructor (fs: FileSystem, files: seq<string>)
      requires AllPlayable(fs, files)
      ensures PathsOpenToReaders() && Valid() && this.fs == fs && this.files == files
      ensures readers == Readers(fs, files) && State() == Start(readers)
      ensures current == null || fresh(current)
    {
      this.fs := fs;
      this.files := files;
      readers := Readers(fs, files);
      index := 0;
      assert forall i :: 0 <= i < |files| ==> Opens(fs, files, Readers(fs, files), i);
      current := null;
      new;
      OpenNext();
    }

    method OpenNext()
      requires PathsOpenToReaders() && index <= |readers|
      modifies this
      ensures Valid() && State() == OpenAt(readers, old(index))
      ensures current == null || fresh(current)
    {
      ghost var at := index;
      OpenAtInv(readers, at);
      current := null;
      if index < |files| {
        assert Opens(fs, files, readers, index);
        current := new WavFileReader(fs, files[index]);
        index := index + 1;
        assert current.State() == readers[at];
      } else {
        current := null;
      }
      assert State() == OpenAt(readers, at);
    }

    function SampleRate(): (r: int)
      reads this, current
      requires Valid()
      ensures r == Rate(State())
    {
      if current != null then current.SampleRate() else 0
    }

    /** Fills `frames[0..n)` from the current reader, or with silence when the list is used up. */
    method GetFrames(frames: array<Frame>, n: int)
      requires PathsOpenToReaders() && Valid() && Count(n) <= frames.Length
      modifies this, current, frames
      ensures Valid()
      ensures (frames[..Count(n)], State()) == PlaylistFrames(readers, old(State()), n)
      ensures frames[Count(n)..] == old(frames[Count(n)..])
      ensures current == old(current) || current == null || fresh(current)
    {
      if current == null {
        var i := 0;
        while i < n
          modifies frames
          invariant 0 <= i <= Count(n)
          invariant frames[..i] == SilenceBlock(i)
          invariant forall k :: i <= k < frames.Length ==> frames[k] == old(frames[k])
        {
          frames[i] := Frame(0, 0);
          assert frames[..i + 1] == frames[..i] + [frames[i]];
          i := i + 1;
        }
        return;
      }
      var offset := 0;
      while offset < n && current != null
        invariant offset == 0 || offset == n
        invariant offset == 0 ==>
          Valid() && current == old(current) && State() == old(State()) && frames[..] == old(frames[..])
        invariant offset == n ==>
          && Valid() && (frames[..Count(n)], State()) == PlaylistFrames(readers, old(State()), n)
          && frames[Count(n)..] == old(frames[Count(n)..])
          && (current == old(current) || current == null || fresh(current))
        decreases n - offset
      {
        Delegate(frames, n - offset);
        offset := n;
      }
    }

    /** One pass of the delegation loop: the whole block from the current reader, then `openNext()` if it finished. */
    method Delegate(frames: array<Frame>, n: int)
      requires PathsOpenToReaders() && Valid() && current != null && 0 < n <= frames.Length
      modifies this, current, frames
      ensures Valid()
      ensures (frames[..n], State()) == PlaylistFrames(readers, old(State()), n)
      ensures frames[n..] == old(frames[n..])
      ensures current == old(current) || current == null || fresh(current)
    {
      ghost var r := current.State();
      FramesKeepInv(readers, State(), n);
      current.GetFrames(frames, n);
      BlockIsReadFrames(r, n);
      assert SameFile(current.State(), readers[index - 1]);
      if current.IsFinished() {
        OpenNext();
      }
    }
  }
}

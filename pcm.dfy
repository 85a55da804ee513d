/**
 * Bytes, fixed-width integers and the PCM frame shared by every stage of the
 * pipeline.  The target is a little-endian machine, so every multi-byte
 * field of a file or of an in-memory frame is stored least-significant byte
 * first; this module gives that encoding and its inverse.
 */
module Pcm {

  datatype Option<T> = None | Some(value: T)

  type byte = x: int | 0 <= x < 0x100
  type uint32 = x: int | 0 <= x < 0x1_0000_0000
  type int16 = x: int | -0x8000 <= x < 0x8000
  type int32 = x: int | -0x8000_0000 <= x < 0x8000_0000

  /** 256 to the power k: the number of values k bytes can hold. */
  function Pow256(k: nat): (p: nat)
    ensures p >= 1
  {
    if k == 0 then 1 else 256 * Pow256(k - 1)
  }

  /** The unsigned value of a little-endian byte string. */
  function FromLE(bs: seq<byte>): (v: nat)
    ensures v < Pow256(|bs|)
  {
    if bs == [] then 0 else bs[0] + 256 * FromLE(bs[1..])
  }

  /** The little-endian byte string of `width` bytes that holds `v`. */
  function ToLE(v: nat, width: nat): (bs: seq<byte>)
    requires v < Pow256(width)
    ensures |bs| == width
  {
    if width == 0 then [] else [v % 256] + ToLE(v / 256, width - 1)
  }

  lemma {:induction false} FromLEToLE(v: nat, width: nat)
    requires v < Pow256(width)
    ensures FromLE(ToLE(v, width)) == v
  {
    if width > 0 {
      var bs := ToLE(v, width);
      assert bs[1..] == ToLE(v / 256, width - 1);
      FromLEToLE(v / 256, width - 1);
    }
  }

  lemma {:induction false} ToLEFromLE(bs: seq<byte>)
    ensures ToLE(FromLE(bs), |bs|) == bs
  {
    if bs != [] {
      var v := FromLE(bs);
      assert v % 256 == bs[0] && v / 256 == FromLE(bs[1..]);
      ToLEFromLE(bs[1..]);
    }
  }

  /** Two's-complement reading of a `width`-byte unsigned value. */
  function ToSigned(u: nat, width: nat): (x: int)
    requires 0 < width && u < Pow256(width)
    ensures -(Pow256(width) / 2) <= x < Pow256(width) / 2
    ensures x == u || x == u - Pow256(width)
  {
    var below := Pow256(width - 1);
    assert Pow256(width) == 256 * below;
    assert Pow256(width) / 2 == 128 * below;
    if u < Pow256(width) / 2 then u else u - Pow256(width)
  }

  /** Two's-complement bit pattern of a signed value, as an unsigned value. */
  function ToUnsigned(x: int, width: nat): (u: nat)
    requires 0 < width && -(Pow256(width) / 2) <= x < Pow256(width) / 2
    ensures u < Pow256(width)
    ensures ToSigned(u, width) == x
  {
    if x < 0 then x + Pow256(width) else x
  }

  /** A signed 16-bit little-endian value stored at `bs[off..off + 2]`. */
  function Int16At(bs: seq<byte>, off: nat): (x: int16)
    requires off + 2 <= |bs|
  {
    var u := bs[off] as int + 256 * bs[off + 1] as int;
    if u < 0x8000 then u else u - 0x1_0000
  }

  /** `Int16At` is the two's-complement reading of the two-byte little-endian value at `off`. */
  lemma Int16AtIsLE(bs: seq<byte>, off: nat)
    requires off + 2 <= |bs|
    ensures Int16At(bs, off) == ToSigned(FromLE(bs[off..off + 2]), 2)
  {
    var two := bs[off..off + 2];
    assert two[1..][1..] == [];
    assert Pow256(2) == 0x1_0000;
  }

  /** The two little-endian bytes memory holds for a signed 16-bit value. */
  function Int16Bytes(x: int16): (bs: seq<byte>)
    ensures |bs| == 2 && Int16At(bs, 0) == x
  {
    var bs := ToLE(ToUnsigned(x, 2), 2);
    FromLEToLE(ToUnsigned(x, 2), 2);
    Int16AtIsLE(bs, 0);
    assert bs[0..2] == bs;
    bs
  }

  /** One left/right sample pair, the unit of data flow. */
  datatype Frame = Frame(left: int16, right: int16)

  const Silence: Frame := Frame(0, 0)

  /** A block of `n` silent frames. */
  function SilenceBlock(n: nat): (s: seq<Frame>)
    ensures |s| == n && forall i :: 0 <= i < n ==> s[i] == Silence
  {
    seq(n, _ => Silence)
  }

  /**
   * The number of frames a `getFrames(frames, n)` call touches: its loops run
   * `for (i = 0; i < n; i++)`, so a negative count touches none.
   */
  function Count(n: int): (c: nat)
    ensures n >= 0 ==> c == n
    ensures n < 0 ==> c == 0
  {
    if n < 0 then 0 else n
  }
}

/**
 * The brightness transform of the webcam viewer: a saturating addition of a
 * signed offset to every 8-bit channel of a captured frame.
 *
 * The source widens the uint8 frame to float32, adds the offset, clips to
 * [0, 255] and narrows back to uint8. Every intermediate value is an integer,
 * and rounding to float32 is monotone and keeps 0 and 255 exact, so clipping
 * the rounded sum gives the same byte as clipping the exact sum: the model
 * uses integer arithmetic throughout.
 */
module Brightness {

  /** One 8-bit unsigned channel intensity, as held in a uint8 image array. */
  type Byte = x: int | 0 <= x < 256

  const MinChannel: int := 0
  const MaxChannel: int := 255

  /** Channels per pixel in a captured frame (blue, green, red). */
  const ChannelsPerPixel: nat := 3

  /**
   * A captured frame: `height` rows of `width` pixels, stored as the
   * row-major sequence of their interleaved channel values.
   */
  datatype Frame = Frame(height: nat, width: nat, data: seq<Byte>)
  {
    /** The channel buffer holds exactly height * width pixels. */
    predicate WellShaped() {
      |data| == height * width * ChannelsPerPixel
    }
  }

  /** Distance between two integers. */
  function Dist(a: int, b: int): (d: nat)
    ensures d == 0 <==> a == b
  {
    if a <= b then b - a else a - b
  }

  /**
   * Clipping to [lo, hi]: the result is the point of the interval
   * nearest to `x`.
   */
  function Clip(x: int, lo: int, hi: int): (r: int)
    requires lo <= hi
    ensures lo <= r <= hi
    ensures lo <= x <= hi ==> r == x
    ensures forall y :: lo <= y <= hi ==> Dist(r, x) <= Dist(y, x)
  {
    if x < lo then lo else if x > hi then hi else x
  }

  /** Saturating addition of `offset` to one channel value. */
  function AdjustChannel(v: Byte, offset: int): (r: Byte)
    ensures MinChannel <= v + offset <= MaxChannel ==> r == v + offset
    ensures v + offset < MinChannel ==> r == MinChannel
    ensures v + offset > MaxChannel ==> r == MaxChannel
    ensures offset >= 0 ==> v <= r
    ensures offset <= 0 ==> r <= v
  {
    Clip(v + offset, MinChannel, MaxChannel)
  }

  /**
   * The whole-array transform: every channel is adjusted independently of
   * every other one, and the buffer keeps its length.
   */
  function AdjustChannels(s: seq<Byte>, offset: int): (r: seq<Byte>)
    ensures |r| == |s|
    ensures forall i :: 0 <= i < |s| ==> r[i] == AdjustChannel(s[i], offset)
  {
    seq(|s|, i requires 0 <= i < |s| => AdjustChannel(s[i], offset))
  }

  /** adjust_brightness on a frame: same shape, every channel adjusted. */
  function AdjustBrightness(f: Frame, offset: int): (r: Frame)
    ensures r.height == f.height && r.width == f.width
    ensures r.WellShaped() <==> f.WellShaped()
    ensures |r.data| == |f.data|
    ensures forall i :: 0 <= i < |f.data| ==> r.data[i] == AdjustChannel(f.data[i], offset)
  {
    Frame(f.height, f.width, AdjustChannels(f.data, offset))
  }

  /** Every output channel lies in [0, 255], for any offset. */
  lemma AdjustBounded(s: seq<Byte>, offset: int)
    ensures forall i :: 0 <= i < |s| ==>
      MinChannel <= AdjustChannels(s, offset)[i] <= MaxChannel
  {
  }

  /** Offset 0 gives the frame back unchanged. */
  lemma AdjustIdentity(f: Frame)
    ensures AdjustBrightness(f, 0) == f
  {
  }

  /**
   * Monotone in the offset's direction: a non-negative offset never
   * darkens a channel and a non-positive one never brightens it.
   */
  lemma AdjustDirection(s: seq<Byte>, offset: int)
    ensures offset >= 0 ==> forall i :: 0 <= i < |s| ==> s[i] <= AdjustChannels(s, offset)[i]
    ensures offset <= 0 ==> forall i :: 0 <= i < |s| ==> AdjustChannels(s, offset)[i] <= s[i]
  {
  }

  /** The transform keeps the order between any two channel values. */
  lemma AdjustOrderPreserving(s: seq<Byte>, offset: int, i: nat, j: nat)
    requires i < |s| && j < |s|
    requires s[i] <= s[j]
    ensures AdjustChannels(s, offset)[i] <= AdjustChannels(s, offset)[j]
  {
  }

  /** A larger offset never gives a darker channel. */
  lemma AdjustMonotoneInOffset(s: seq<Byte>, lower: int, upper: int)
    requires lower <= upper
    ensures forall i :: 0 <= i < |s| ==>
      AdjustChannels(s, lower)[i] <= AdjustChannels(s, upper)[i]
  {
  }

  /**
   * Pointwise: adjusting two buffers laid end to end is adjusting each of
   * them, so no output channel depends on a neighbour.
   */
  lemma AdjustConcat(s: seq<Byte>, t: seq<Byte>, offset: int)
    ensures AdjustChannels(s + t, offset) == AdjustChannels(s, offset) + AdjustChannels(t, offset)
  {
  }

  /** Pointwise: adjusting a slice is the slice of the adjusted buffer. */
  lemma AdjustSlice(s: seq<Byte>, offset: int, lo: nat, hi: nat)
    requires lo <= hi <= |s|
    ensures AdjustChannels(s[lo..hi], offset) == AdjustChannels(s, offset)[lo..hi]
  {
  }

  /**
   * Two adjustments in the same direction saturate once: they compose to a
   * single adjustment by the sum of the offsets.
   */
  lemma AdjustCompose(s: seq<Byte>, a: int, b: int)
    requires (a >= 0 && b >= 0) || (a <= 0 && b <= 0)
    ensures AdjustChannels(AdjustChannels(s, a), b) == AdjustChannels(s, a + b)
  {
  }

  /**
   * Undoing an offset restores the buffer exactly when no channel
   * saturated on the way there; a saturated channel keeps the doubly
   * clipped value instead.
   */
  lemma AdjustUndo(s: seq<Byte>, offset: int)
    requires -MaxChannel <= offset <= MaxChannel
    ensures AdjustChannels(AdjustChannels(s, offset), -offset) == s
        <==> forall i :: 0 <= i < |s| ==> MinChannel <= s[i] + offset <= MaxChannel
  {
  }

  /** A frame whose `n` channels all hold `v`. */
  function Uniform(n: nat, v: Byte): (r: seq<Byte>)
    ensures |r| == n
    ensures forall i :: 0 <= i < n ==> r[i] == v
  {
    seq(n, _ => v)
  }

  /** A uniform frame stays uniform, at the adjusted level. */
  lemma AdjustUniform(n: nat, v: Byte, offset: int)
    ensures AdjustChannels(Uniform(n, v), offset) == Uniform(n, AdjustChannel(v, offset))
  {
  }

  /**
   * Three worked cases: grey 100 raised by 50 gives 150; 240 raised by 50
   * saturates at 255; 10 lowered by 50 saturates at 0.
   */
  lemma AdjustWorkedCases(n: nat)
    ensures AdjustChannels(Uniform(n, 100), 50) == Uniform(n, 150)
    ensures AdjustChannels(Uniform(n, 240), 50) == Uniform(n, 255)
    ensures AdjustChannels(Uniform(n, 10), -50) == Uniform(n, 0)
  {
  }
}

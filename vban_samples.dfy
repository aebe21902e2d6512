/**
 * 16-bit PCM samples on the wire: each sample is two bytes, low byte first, and
 * a packet's payload holds frames (one sample per channel) one after another.
 *
 * The sender writes `(char)value` and `(char)(value >> 8)`; the receiver rebuilds
 * `((short)hi << 8) | (0x00ff & lo)`. Samples are taken here as already-quantised
 * 16-bit values: the float scaling on either side is not part of this model.
 */
module VbanSamples {
  import opened VbanHeader

  type int16 = x: int | -0x8000 <= x < 0x8000

  /** (char)value: the low eight bits of the two's-complement value. */
  function LowByte(v: int16): (lo: byte)
    ensures (v - lo) % 256 == 0
  {
    v % 256
  }

  /** (char)(value >> 8): bits 8-15; the arithmetic shift is a floor division. */
  function HighByte(v: int16): (hi: byte)
    ensures hi * 256 + LowByte(v) == if v < 0 then v + 0x1_0000 else v
  {
    v / 256 % 256
  }

  /** static_cast<short>(char) for a byte holding a two's-complement char. */
  function SignedByte(b: byte): (s: int)
    ensures -128 <= s < 128
  {
    if b < 128 then b else b - 256
  }

  /**
   * The receiver's reconstruction of a sample from its two bytes: the signed high
   * byte shifted up by eight bits, or-ed with the unsigned low byte.
   */
  function Int16FromBytes(lo: byte, hi: byte): (v: int16)
    ensures hi * 256 + lo == if v < 0 then v + 0x1_0000 else v
  {
    SignedByte(hi) * 256 + lo
  }

  /** Every 16-bit value survives being split into two bytes and rebuilt. */
  lemma SampleRoundTrip(v: int16)
    ensures Int16FromBytes(LowByte(v), HighByte(v)) == v
  {
    var q := v / 256;
    assert v == 256 * q + LowByte(v);
    assert -128 <= q < 128;
    if q < 0 {
      DivMod256(q + 256, 0, q + 256);
      assert HighByte(v) == q + 256;
    } else {
      DivMod256(q, 0, q);
      assert HighByte(v) == q;
    }
  }

  /** Every pair of bytes is what the sender writes for the value rebuilt from it. */
  lemma BytesRoundTrip(lo: byte, hi: byte)
    ensures LowByte(Int16FromBytes(lo, hi)) == lo && HighByte(Int16FromBytes(lo, hi)) == hi
  {
    var v := Int16FromBytes(lo, hi);
    DivMod256(v, SignedByte(hi), lo);
    if SignedByte(hi) < 0 {
      DivMod256(SignedByte(hi), -1, hi);
    } else {
      DivMod256(SignedByte(hi), 0, hi);
    }
  }

  function SampleBytes(v: int16): seq<byte>
  {
    [LowByte(v), HighByte(v)]
  }

  /** The bytes of one frame: its samples in channel order. */
  function FrameBytes(f: seq<int16>): (b: seq<byte>)
    ensures |b| == 2 * |f|
  {
    if f == [] then [] else FrameBytes(f[..|f| - 1]) + SampleBytes(f[|f| - 1])
  }

  /** The bytes of several frames, in frame order. */
  function FramesBytes(fs: seq<seq<int16>>): (b: seq<byte>)
  {
    if fs == [] then [] else FramesBytes(fs[..|fs| - 1]) + FrameBytes(fs[|fs| - 1])
  }

  /** Every frame holds one sample for each of the given number of channels. */
  predicate FramesOfWidth(fs: seq<seq<int16>>, channels: nat)
  {
    forall i :: 0 <= i < |fs| ==> |fs[i]| == channels
  }

  /** Byte offset of sample i of channel c among frames of the given width. */
  function SampleOffset(i: nat, c: nat, channels: nat): nat
  {
    2 * (i * channels + c)
  }

  lemma {:induction false} FramesBytesLength(fs: seq<seq<int16>>, channels: nat)
    requires FramesOfWidth(fs, channels)
    ensures |FramesBytes(fs)| == 2 * (|fs| * channels)
  {
    if fs != [] {
      var n := |fs|;
      var init := fs[..n - 1];
      assert FramesOfWidth(init, channels) by {
        forall i | 0 <= i < |init| ensures |init[i]| == channels { assert init[i] == fs[i]; }
      }
      FramesBytesLength(init, channels);
      DistributeStep(channels, n);
    }
  }

  lemma DistributeStep(k: nat, n: nat)
    requires n > 0
    ensures (n - 1) * k + k == n * k
  {
  }

  /** One more sample of a frame adds that sample's bytes. */
  lemma FrameBytesPrefix(f: seq<int16>, c: nat)
    requires c < |f|
    ensures FrameBytes(f[..c + 1]) == FrameBytes(f[..c]) + SampleBytes(f[c])
  {
    assert f[..c + 1][..c] == f[..c];
  }

  /** One more frame of a sequence adds that frame's bytes. */
  lemma FramesBytesPrefix(fs: seq<seq<int16>>, i: nat)
    requires i < |fs|
    ensures FramesBytes(fs[..i + 1]) == FramesBytes(fs[..i]) + FrameBytes(fs[i])
  {
    assert fs[..i + 1][..i] == fs[..i];
  }

  /** Frames written in two batches give the bytes of all frames written at once. */
  lemma {:induction false} FramesBytesConcat(a: seq<seq<int16>>, b: seq<seq<int16>>)
    ensures FramesBytes(a + b) == FramesBytes(a) + FramesBytes(b)
  {
    if b == [] {
      assert a + b == a;
    } else {
      var init := b[..|b| - 1];
      FramesBytesConcat(a, init);
      assert (a + b)[..|a + b| - 1] == a + init;
      var x, y, z := FramesBytes(a), FramesBytes(init), FrameBytes(b[|b| - 1]);
      assert FramesBytes(a + b) == (x + y) + z;
      assert (x + y) + z == x + (y + z);
    }
  }

  lemma {:induction false} FrameBytesAt(f: seq<int16>, c: nat)
    requires c < |f|
    ensures FrameBytes(f)[2 * c] == LowByte(f[c]) && FrameBytes(f)[2 * c + 1] == HighByte(f[c])
  {
    if c < |f| - 1 {
      FrameBytesAt(f[..|f| - 1], c);
    }
  }

  lemma MulStep(i: nat, n: nat, c: nat, channels: nat)
    requires i < n && c < channels
    ensures i * channels + c + 1 <= n * channels
  {
    DistributeStep(channels, i + 1);
    MulDistrib(i + 1, n - i - 1, channels);
    assert (n - i - 1) * channels >= 0;
  }

  lemma MulDistrib(a: nat, b: nat, k: nat)
    ensures (a + b) * k == a * k + b * k
  {
  }

  /**
   * The two bytes at a sample's offset are the bytes of that sample: frames are
   * laid out sample-major, channel-minor.
   */
  lemma {:induction false} FramesBytesAt(fs: seq<seq<int16>>, channels: nat, i: nat, c: nat)
    requires FramesOfWidth(fs, channels)
    requires i < |fs| && c < channels
    ensures |FramesBytes(fs)| == 2 * (|fs| * channels)
    ensures i * channels + c + 1 <= |fs| * channels
    ensures FramesBytes(fs)[SampleOffset(i, c, channels)] == LowByte(fs[i][c])
    ensures FramesBytes(fs)[SampleOffset(i, c, channels) + 1] == HighByte(fs[i][c])
  {
    FramesBytesLength(fs, channels);
    MulStep(i, |fs|, c, channels);
    var n := |fs|;
    var init := fs[..n - 1];
    assert FramesOfWidth(init, channels) by {
      forall j | 0 <= j < |init| ensures |init[j]| == channels { assert init[j] == fs[j]; }
    }
    FramesBytesLength(init, channels);
    var whole, front, last := FramesBytes(fs), FramesBytes(init), FrameBytes(fs[n - 1]);
    assert whole == front + last;
    var off := SampleOffset(i, c, channels);
    if i < n - 1 {
      MulStep(i, n - 1, c, channels);
      FramesBytesAt(init, channels, i, c);
      assert init[i] == fs[i];
      assert off + 1 < |front|;
      assert whole[off] == front[off] && whole[off + 1] == front[off + 1];
    } else {
      assert i == n - 1;
      assert |front| == 2 * (i * channels);
      assert off == |front| + 2 * c;
      FrameBytesAt(fs[i], c);
      assert whole[off] == last[2 * c] && whole[off + 1] == last[2 * c + 1];
    }
  }
}

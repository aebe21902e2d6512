/**
 * The sending side: a VbanSender owns one packet buffer. start() sizes it for the
 * channel count and stamps the header; operator() appends each block of input
 * frames to it as 16-bit little-endian samples; sendPacket() stamps the frame
 * counter and hands the filled prefix of the buffer to the socket.
 *
 * The socket is abstracted away: whether the destination address parses is a
 * parameter of start(), and every sendto() appends the bytes it would send to the
 * ghost log `sent`. Input samples arrive already quantised to 16 bits.
 */
module VbanSend {
  import opened VbanHeader
  import opened VbanSamples

  /** The largest channel count the header's one-byte format_nbc field can carry. */
  const MAX_SENT_CHANNELS: nat := 254

  // ---------------------------------------------------------------------------
  // Packet sizing
  // ---------------------------------------------------------------------------

  /**
   * Bytes per channel in one packet: 256 samples of two bytes, unless that would
   * overflow the payload, in which case the largest even share of the payload.
   */
  function PacketChannelSize(channelCount: nat): (size: int)
    ensures 0 <= size <= VBAN_SAMPLES_MAX_NB * 2 && size % 2 == 0
  {
    if VBAN_SAMPLES_MAX_NB * 2 * channelCount > VBAN_DATA_MAX_SIZE
    then ShareBound(channelCount); 2 * (VBAN_DATA_MAX_SIZE / (channelCount * 2))
    else VBAN_SAMPLES_MAX_NB * 2
  }

  /** With more than two channels, an even share of the data size is below 256 samples. */
  lemma ShareBound(channelCount: nat)
    requires VBAN_SAMPLES_MAX_NB * 2 * channelCount > VBAN_DATA_MAX_SIZE
    ensures var share := 2 * (VBAN_DATA_MAX_SIZE / (channelCount * 2));
      0 <= share < 2 * VBAN_SAMPLES_MAX_NB && share % 2 == 0
  {
    QuotientBelow(VBAN_SAMPLES_MAX_NB, channelCount * 2, VBAN_DATA_MAX_SIZE);
  }

  /** A multiple of d beyond x bounds the floor quotient from above. */
  lemma QuotientBelow(k: nat, d: nat, x: nat)
    requires d > 0 && k * d > x
    ensures 0 <= x / d < k
  {
    var q := x / d;
    assert x == q * d + x % d;
    if q >= k {
      MulMono(k, q, d);
    } else if q < 0 {
      MulMono(1, -q, d);
    }
  }

  lemma MulMono(a: nat, b: nat, k: nat)
    requires a <= b
    ensures a * k <= b * k
  {
    MulDistrib(a, b - a, k);
  }

  /** A multiple of d that does not exceed x is at most the floor quotient's multiple. */
  lemma FloorQuotientMax(k: nat, d: nat, x: nat)
    requires d > 0 && k * d <= x
    ensures k <= x / d
  {
    var q := x / d;
    assert x == q * d + x % d;
    if k > q {
      MulMono(q + 1, k, d);
      MulDistrib(q, 1, d);
    }
  }

  /**
   * For every channel count (none included, where the size stays 512 and nothing
   * is divided), the per-channel size is even, the whole payload fits
   * the protocol's data size, it is 512 whenever 512 bytes per channel already
   * fit, and no larger even size of at most 512 bytes would fit.
   */
  lemma PacketChannelSizeFits(channelCount: nat)
    ensures var size := PacketChannelSize(channelCount);
      && 0 <= size <= VBAN_SAMPLES_MAX_NB * 2
      && size % 2 == 0
      && 0 <= size * channelCount <= VBAN_DATA_MAX_SIZE
      && (VBAN_SAMPLES_MAX_NB * 2 * channelCount <= VBAN_DATA_MAX_SIZE ==> size == VBAN_SAMPLES_MAX_NB * 2)
  {
    var size := PacketChannelSize(channelCount);
    if VBAN_SAMPLES_MAX_NB * 2 * channelCount > VBAN_DATA_MAX_SIZE {
      var d := channelCount * 2;
      var q := VBAN_DATA_MAX_SIZE / d;
      assert VBAN_DATA_MAX_SIZE == q * d + VBAN_DATA_MAX_SIZE % d;
      assert size * channelCount == q * d;
    }
  }

  /** The shrunk size is the largest even per-channel size that fits. */
  lemma PacketChannelSizeMaximal(channelCount: nat, size: nat)
    requires size % 2 == 0 && size <= VBAN_SAMPLES_MAX_NB * 2
    requires size * channelCount <= VBAN_DATA_MAX_SIZE
    ensures size <= PacketChannelSize(channelCount)
  {
    if VBAN_SAMPLES_MAX_NB * 2 * channelCount > VBAN_DATA_MAX_SIZE {
      var k := size / 2;
      assert k * (channelCount * 2) == size * channelCount;
      FloorQuotientMax(k, channelCount * 2, VBAN_DATA_MAX_SIZE);
    }
  }

  /**
   * The header start() stamps, for the channel count the packet was sized for
   * and the per-channel byte count it was sized to:
   * format_nbc and format_nbs are stored through a char, so they keep the low
   * eight bits of channelCount - 1 and of the per-channel sample count - 1; the
   * frame counter is a 32-bit field.
   */
  function StampedHeader(channelCount: nat, channelSize: int, srFormat: nat, name: seq<byte>, counter: nat): (h: Header)
    requires srFormat < VBAN_SR_MAXNUMBER
    ensures WellFormed(h)
  {
    Header(MAGIC, srFormat,
           (channelSize / 2 - 1) % 256,
           (channelCount - 1) % 256,
           VBAN_BITFMT_16_INT,
           StrNCpy(name, VBAN_STREAM_NAME_SIZE - 1) + [0],
           counter % U32_MODULUS)
  }

  /**
   * The frame counter the header holds after `counter` packets have been
   * counted: start() stamps 0, and each send stamps the count before it is
   * incremented.
   */
  function LastStamped(counter: nat): nat
  {
    if counter == 0 then 0 else counter - 1
  }

  /**
   * The bytes sendPacket() hands to the socket for a sender sized and stamped
   * for channelCount: the header with the given frame counter, then the frames.
   */
  function Packet(channelCount: nat, srFormat: nat, name: seq<byte>, counter: nat, frames: seq<seq<int16>>): (p: seq<byte>)
    requires srFormat < VBAN_SR_MAXNUMBER
    ensures |p| == VBAN_HEADER_SIZE + |FramesBytes(frames)|
    ensures p[..VBAN_HEADER_SIZE] == EncodeHeader(StampedHeader(channelCount, PacketChannelSize(channelCount), srFormat, name, counter))
    ensures p[VBAN_HEADER_SIZE..] == FramesBytes(frames)
  {
    EncodeHeader(StampedHeader(channelCount, PacketChannelSize(channelCount), srFormat, name, counter)) + FramesBytes(frames)
  }

  /**
   * The assertion in sendPacket compares a cursor that includes the header with
   * the payload-only maximum: with three channels a full packet is 1434 payload
   * bytes after the header, so the cursor exceeds 1436 when the packet is sent.
   */
  lemma ThreeChannelPacketPassesDataMax()
    ensures PacketChannelSize(3) * 3 == 1434
    ensures VBAN_HEADER_SIZE + PacketChannelSize(3) * 3 > VBAN_DATA_MAX_SIZE
  {
  }

  /** The frames of one input block: frame i holds sample i of every channel. */
  function BlockFrames(input: seq<seq<int16>>, channels: nat, frameCount: nat): (fs: seq<seq<int16>>)
    requires channels <= |input|
    requires forall c :: 0 <= c < channels ==> frameCount <= |input[c]|
    ensures |fs| == frameCount && FramesOfWidth(fs, channels)
    ensures forall i, c :: 0 <= i < frameCount && 0 <= c < channels ==> fs[i][c] == input[c][i]
  {
    seq(frameCount, i requires 0 <= i < frameCount =>
      seq(channels, c requires 0 <= c < channels => input[c][i]))
  }

  // ---------------------------------------------------------------------------
  // Buffer helpers
  // ---------------------------------------------------------------------------

  /**
   * std::vector::resize on the packet array: the same operation as the receive
   * buffer's Resize, keeping the common prefix and zero-filling any growth.
   */
  method Resized(a: array<byte>, n: nat) returns (b: array<byte>)
    ensures fresh(b) && b.Length == n
    ensures forall k :: 0 <= k < n ==> b[k] == if k < a.Length then a[k] else 0
  {
    b := new byte[n](_ => 0);
    forall k | 0 <= k < n && k < a.Length {
      b[k] := a[k];
    }
  }

  /** Copies bytes into the array starting at the given offset. */
  method WriteBytes(a: array<byte>, at: nat, bytes: seq<byte>)
    requires at + |bytes| <= a.Length
    modifies a
    ensures a[at..at + |bytes|] == bytes
    ensures forall k :: 0 <= k < a.Length && !(at <= k < at + |bytes|) ==> a[k] == old(a[k])
  {
    forall k | at <= k < at + |bytes| {
      a[k] := bytes[k - at];
    }
  }

  /**
   * The header stores start() performs, in its order: magic, format_nbc,
   * format_SR, format_bit, 15 stream-name bytes, nuFrame, format_nbs. Byte 23,
   * the last stream-name byte, is not written.
   */
  method StoreHeaderFields(buf: array<byte>, sr: byte, nbs: byte, nbc: byte, name: seq<byte>, counter: seq<byte>)
    requires buf.Length >= VBAN_HEADER_SIZE && buf[NAME_LAST_OFFSET] == 0
    requires |name| == VBAN_STREAM_NAME_SIZE - 1 && |counter| == 4
    modifies buf
    ensures buf[..VBAN_HEADER_SIZE] == MAGIC + [sr, nbs, nbc, VBAN_BITFMT_16_INT] + (name + [0]) + counter
    ensures forall k :: VBAN_HEADER_SIZE <= k < buf.Length ==> buf[k] == old(buf[k])
  {
    WriteBytes(buf, 0, MAGIC);
    buf[6] := nbc;
    buf[4] := sr;
    buf[7] := VBAN_BITFMT_16_INT;
    WriteBytes(buf, 8, name);
    WriteBytes(buf, NU_FRAME_OFFSET, counter);
    buf[5] := nbs;
    assert buf[8..NU_FRAME_OFFSET] == buf[8..NAME_LAST_OFFSET] + [buf[NAME_LAST_OFFSET]];
    assert buf[..4] == MAGIC;
    assert buf[4..8] == [sr, nbs, nbc, VBAN_BITFMT_16_INT];
    assert buf[8..NU_FRAME_OFFSET] == name + [0];
    assert buf[NU_FRAME_OFFSET..VBAN_HEADER_SIZE] == counter;
    assert buf[..VBAN_HEADER_SIZE]
        == buf[..4] + buf[4..8] + buf[8..NU_FRAME_OFFSET] + buf[NU_FRAME_OFFSET..VBAN_HEADER_SIZE];
  }

  /** The store of the frame counter into nuFrame, the last four header bytes. */
  method StampFrameCounter(buf: array<byte>, counter: nat)
    requires buf.Length >= VBAN_HEADER_SIZE && counter < U32_MODULUS
    modifies buf
    ensures buf[..] == old(buf[..])[..NU_FRAME_OFFSET] + U32Le(counter) + old(buf[..])[VBAN_HEADER_SIZE..]
  {
    WriteBytes(buf, NU_FRAME_OFFSET, U32Le(counter));
    assert buf[..] == buf[..NU_FRAME_OFFSET] + buf[NU_FRAME_OFFSET..VBAN_HEADER_SIZE] + buf[VBAN_HEADER_SIZE..];
  }

  /** A packet buffer with the frame counter, taken modulo 2^32, stamped into bytes 24-27. */
  function Restamped(buf: seq<byte>, counter: nat): seq<byte>
    requires |buf| >= VBAN_HEADER_SIZE
  {
    buf[..NU_FRAME_OFFSET] + U32Le(counter % U32_MODULUS) + buf[VBAN_HEADER_SIZE..]
  }

  /**
   * Restamping nuFrame in a buffer that holds a header and some frames leaves a
   * buffer whose filled prefix is the restamped header and the same frames.
   */
  lemma RestampedPacket(before: seq<byte>, after: seq<byte>, channelCount: nat, channelSize: int, srFormat: nat,
                        name: seq<byte>, last: nat, counter: nat, pos: nat, frames: seq<seq<int16>>)
    requires srFormat < VBAN_SR_MAXNUMBER
    requires VBAN_HEADER_SIZE <= pos <= |before|
    requires before[..VBAN_HEADER_SIZE] == EncodeHeader(StampedHeader(channelCount, channelSize, srFormat, name, last))
    requires before[VBAN_HEADER_SIZE..pos] == FramesBytes(frames)
    requires after == before[..NU_FRAME_OFFSET] + U32Le(counter % U32_MODULUS) + before[VBAN_HEADER_SIZE..]
    ensures |after| == |before| && after[NAME_LAST_OFFSET] == before[NAME_LAST_OFFSET]
    ensures after[..VBAN_HEADER_SIZE] == EncodeHeader(StampedHeader(channelCount, channelSize, srFormat, name, counter))
    ensures after[..pos] == EncodeHeader(StampedHeader(channelCount, channelSize, srFormat, name, counter)) + FramesBytes(frames)
  {
    var h := StampedHeader(channelCount, channelSize, srFormat, name, last);
    var stamp := counter % U32_MODULUS;
    EncodeHeaderNuFrame(h, stamp);
    assert h.(nuFrame := stamp) == StampedHeader(channelCount, channelSize, srFormat, name, counter);
    assert before[..NU_FRAME_OFFSET] == EncodeHeader(h)[..NU_FRAME_OFFSET];
    assert after[..VBAN_HEADER_SIZE] == before[..NU_FRAME_OFFSET] + U32Le(stamp);
    assert after[VBAN_HEADER_SIZE..pos] == before[VBAN_HEADER_SIZE..pos];
    assert after[..pos] == after[..VBAN_HEADER_SIZE] + after[VBAN_HEADER_SIZE..pos];
  }

  /**
   * Two consecutive writes into a buffer: bytes a over [start, pos) and then
   * bytes b over [pos, end) leave a + b over [start, end) and the rest as it was.
   */
  lemma SpliceAppend(o: seq<byte>, cur: seq<byte>, next: seq<byte>, start: nat, pos: nat, end: nat,
                     a: seq<byte>, b: seq<byte>)
    requires start <= pos <= end <= |o| && |a| == pos - start && |b| == end - pos
    requires cur == o[..start] + a + o[pos..]
    requires next == cur[..pos] + b + cur[end..]
    ensures next == o[..start] + (a + b) + o[end..]
  {
    assert cur[..pos] == o[..start] + a;
    assert cur[end..] == o[end..];
  }

  /** One sample stored at the cursor, low byte first. */
  method WriteSample(buf: array<byte>, pos: nat, value: int16)
    requires pos + 2 <= buf.Length
    modifies buf
    ensures buf[..] == old(buf[..])[..pos] + SampleBytes(value) + old(buf[..])[pos + 2..]
  {
    buf[pos] := LowByte(value);
    buf[pos + 1] := HighByte(value);
    assert buf[..] == buf[..pos] + buf[pos..pos + 2] + buf[pos + 2..];
  }

  /**
   * The inner loop of operator()'s accumulation: sample i of each channel in
   * channel order, low byte then high byte, from the cursor on.
   */
  method WriteFrame(buf: array<byte>, at: nat, input: seq<seq<int16>>, channels: nat, i: nat,
                    ghost frame: seq<int16>)
    returns (pos: nat)
    requires channels <= |input| && forall c :: 0 <= c < channels ==> i < |input[c]|
    requires |frame| == channels && forall c :: 0 <= c < channels ==> frame[c] == input[c][i]
    requires at + 2 * channels <= buf.Length
    modifies buf
    ensures pos == at + 2 * channels
    ensures buf[..] == old(buf[..])[..at] + FrameBytes(frame) + old(buf[..])[pos..]
  {
    ghost var o := buf[..];
    pos := at;
    var channel := 0;
    assert o == o[..at] + FrameBytes(frame[..0]) + o[at..];
    while channel < channels
      invariant 0 <= channel <= channels
      invariant pos == at + 2 * channel
      invariant buf[..] == o[..at] + FrameBytes(frame[..channel]) + o[pos..]
    {
      var value := input[channel][i];
      ghost var cur := buf[..];
      WriteSample(buf, pos, value);
      SpliceAppend(o, cur, buf[..], at, pos, pos + 2, FrameBytes(frame[..channel]), SampleBytes(value));
      FrameBytesPrefix(frame, channel);
      pos := pos + 2;
      channel := channel + 1;
    }
    assert frame[..channels] == frame;
  }

  /**
   * The accumulation loop of operator(): each frame of the block in turn, the
   * cursor advancing by two bytes per sample. Returns the final cursor.
   */
  method WriteBlock(buf: array<byte>, start: nat, input: seq<seq<int16>>, channels: nat, frameCount: nat)
    returns (pos: nat)
    requires channels <= |input| && forall c :: 0 <= c < channels ==> frameCount <= |input[c]|
    requires start + 2 * (frameCount * channels) <= buf.Length
    modifies buf
    ensures pos == start + 2 * (frameCount * channels)
    ensures buf[..] == old(buf[..])[..start] + FramesBytes(BlockFrames(input, channels, frameCount)) + old(buf[..])[pos..]
  {
    ghost var o := buf[..];
    ghost var block := BlockFrames(input, channels, frameCount);
    pos := start;
    var i := 0;
    assert o == o[..start] + FramesBytes(block[..0]) + o[start..];
    while i < frameCount
      invariant 0 <= i <= frameCount
      invariant pos == start + 2 * (i * channels)
      invariant i * channels <= frameCount * channels
      invariant buf[..] == o[..start] + FramesBytes(block[..i]) + o[pos..]
    {
      DistributeStep(channels, i + 1);
      MulMono(i + 1, frameCount, channels);
      ghost var cur := buf[..];
      var next := WriteFrame(buf, pos, input, channels, i, block[i]);
      SpliceAppend(o, cur, buf[..], start, pos, next, FramesBytes(block[..i]), FrameBytes(block[i]));
      FramesBytesPrefix(block, i);
      pos := next;
      i := i + 1;
    }
    assert block[..frameCount] == block;
  }

  /**
   * Appending frames right after the filled part of a buffer that holds a header
   * and some frames leaves the header alone and fills it with all the frames.
   */
  lemma AppendedFrames(before: seq<byte>, after: seq<byte>, pos: nat, end: nat, channels: nat,
                       pending: seq<seq<int16>>, block: seq<seq<int16>>)
    requires VBAN_HEADER_SIZE <= pos <= |before|
    requires end == pos + 2 * (|block| * channels) <= |before|
    requires FramesOfWidth(pending, channels) && FramesOfWidth(block, channels)
    requires before[VBAN_HEADER_SIZE..pos] == FramesBytes(pending)
    requires after == before[..pos] + FramesBytes(block) + before[end..]
    ensures |after| == |before| && after[..VBAN_HEADER_SIZE] == before[..VBAN_HEADER_SIZE]
    ensures after[NAME_LAST_OFFSET] == before[NAME_LAST_OFFSET]
    ensures FramesOfWidth(pending + block, channels)
    ensures after[VBAN_HEADER_SIZE..end] == FramesBytes(pending + block)
  {
    FramesBytesLength(block, channels);
    FramesBytesConcat(pending, block);
    assert after[VBAN_HEADER_SIZE..end] == after[VBAN_HEADER_SIZE..pos] + after[pos..end];
  }

  // ---------------------------------------------------------------------------
  // The sender
  // ---------------------------------------------------------------------------

  class VbanSender {
    var mChannelCount: nat
    var mStreamName: seq<byte>
    var mSampleRateFormat: int
    var mPacketChannelSize: int
    var mAudioBufferSize: int
    var mPacketSize: int
    var mVbanBuffer: array<byte>
    var mPacketCounter: nat
    var mPacketWritePos: int
    var mIsRunning: bool

    /** Every packet handed to the socket, in order. */
    ghost var sent: seq<seq<byte>>
    /** The frames written to the buffer since the last packet was sent. */
    ghost var pending: seq<seq<int16>>
    /** The channel count start() sized the packet and stamped the header for. */
    ghost var sizedChannels: nat

    /**
     * Byte 23, the last byte of the stream-name field, is never written and so
     * stays NUL. While running: the per-channel, payload and packet sizes are
     * those start() computed for sizedChannels, the channel count is that one clamped to 254, the header
     * holds the stamped fields with the last frame counter stamped, and the
     * bytes between the header and the cursor are the pending frames.
     */
    ghost predicate Valid()
      reads this, mVbanBuffer
    {
      && 0 <= mSampleRateFormat < VBAN_SR_MAXNUMBER
      && (mVbanBuffer.Length > NAME_LAST_OFFSET ==> mVbanBuffer[NAME_LAST_OFFSET] == 0)
      && (mIsRunning ==>
        && mChannelCount == (if sizedChannels > MAX_SENT_CHANNELS then MAX_SENT_CHANNELS else sizedChannels)
        && mPacketChannelSize == PacketChannelSize(sizedChannels)
        && mAudioBufferSize == mPacketChannelSize * sizedChannels
        && mPacketSize == mAudioBufferSize + VBAN_HEADER_SIZE
        && mAudioBufferSize <= VBAN_DATA_MAX_SIZE
        && mVbanBuffer.Length == mPacketSize
        && VBAN_HEADER_SIZE <= mPacketWritePos <= mPacketSize
        && mVbanBuffer[..VBAN_HEADER_SIZE]
           == EncodeHeader(StampedHeader(sizedChannels, mPacketChannelSize, mSampleRateFormat, mStreamName, LastStamped(mPacketCounter)))
        && FramesOfWidth(pending, mChannelCount)
        && mVbanBuffer[VBAN_HEADER_SIZE..mPacketWritePos] == FramesBytes(pending))
    }

    /** A stopped sender with an empty buffer and the given settings. */
    constructor(channelCount: nat, streamName: seq<byte>)
      ensures Valid() && !mIsRunning
      ensures mChannelCount == channelCount && mStreamName == streamName
      ensures mVbanBuffer.Length == 0 && mPacketCounter == 0 && mPacketWritePos == VBAN_HEADER_SIZE
      ensures sent == [] && pending == []
    {
      mChannelCount := channelCount;
      mStreamName := streamName;
      mSampleRateFormat := 0;
      mPacketChannelSize := 0;
      mAudioBufferSize := 0;
      mPacketSize := 0;
      mVbanBuffer := new byte[0];
      mPacketCounter := 0;
      mPacketWritePos := VBAN_HEADER_SIZE;
      mIsRunning := false;
      sent := [];
      pending := [];
      sizedChannels := 0;
    }

    /**
     * The header stores of start(), in their order: magic, format_nbc,
     * format_SR, format_bit, the first 15 bytes of the stream name, nuFrame and
     * format_nbs. Byte 23 is not written; the payload is untouched.
     */
    method StampHeader()
      requires mVbanBuffer.Length >= VBAN_HEADER_SIZE && mVbanBuffer[NAME_LAST_OFFSET] == 0
      requires 0 <= mSampleRateFormat < VBAN_SR_MAXNUMBER
      requires mPacketCounter < U32_MODULUS
      modifies mVbanBuffer
      ensures mVbanBuffer[..VBAN_HEADER_SIZE]
           == EncodeHeader(StampedHeader(mChannelCount, mPacketChannelSize, mSampleRateFormat, mStreamName, mPacketCounter))
      ensures forall k :: VBAN_HEADER_SIZE <= k < mVbanBuffer.Length ==> mVbanBuffer[k] == old(mVbanBuffer[k])
    {
      var h := StampedHeader(mChannelCount, mPacketChannelSize, mSampleRateFormat, mStreamName, mPacketCounter);
      StoreHeaderFields(mVbanBuffer, h.formatSR, h.formatNbs, h.formatNbc,
                        StrNCpy(mStreamName, VBAN_STREAM_NAME_SIZE - 1), U32Le(h.nuFrame));
    }

    /**
     * The sizing part of start(): the per-channel size, the payload and packet
     * sizes, the buffer resized to the packet size (its old bytes kept, any growth
     * zero-filled), and the counter and cursor reset.
     */
    method SizePacket()
      requires Valid() && !mIsRunning
      modifies this
      ensures fresh(mVbanBuffer) && mVbanBuffer.Length == mPacketSize
      ensures mPacketChannelSize == PacketChannelSize(mChannelCount)
      ensures mAudioBufferSize == mPacketChannelSize * mChannelCount
      ensures 0 <= mAudioBufferSize <= VBAN_DATA_MAX_SIZE
      ensures mPacketSize == mAudioBufferSize + VBAN_HEADER_SIZE
      ensures mPacketCounter == 0 && mPacketWritePos == VBAN_HEADER_SIZE
      ensures forall k :: 0 <= k < mPacketSize ==>
        mVbanBuffer[k] == if k < old(mVbanBuffer.Length) then old(mVbanBuffer[k]) else 0
      ensures mSampleRateFormat == old(mSampleRateFormat)
      ensures mChannelCount == old(mChannelCount) && mStreamName == old(mStreamName) && !mIsRunning
      ensures sent == old(sent) && pending == old(pending) && sizedChannels == old(sizedChannels)
    {
      PacketChannelSizeFits(mChannelCount);
      mPacketChannelSize := PacketChannelSize(mChannelCount);
      mAudioBufferSize := mPacketChannelSize * mChannelCount;
      mPacketSize := mAudioBufferSize + VBAN_HEADER_SIZE;
      mVbanBuffer := Resized(mVbanBuffer, mPacketSize);
      mPacketCounter := 0;
      mPacketWritePos := VBAN_HEADER_SIZE;
    }

    /**
     * The part of start() that prepares the packet: the packet sized, the last
     * matching rate index taken (the old index kept when the host rate is not in
     * the table), and the header stamped.
     */
    method PreparePacket(hostRate: int)
      requires Valid() && !mIsRunning
      modifies this
      ensures fresh(mVbanBuffer) && mVbanBuffer.Length == mPacketSize
      ensures mPacketChannelSize == PacketChannelSize(mChannelCount)
      ensures mAudioBufferSize == mPacketChannelSize * mChannelCount
      ensures 0 <= mAudioBufferSize <= VBAN_DATA_MAX_SIZE
      ensures mPacketSize == mAudioBufferSize + VBAN_HEADER_SIZE
      ensures mPacketCounter == 0 && mPacketWritePos == VBAN_HEADER_SIZE
      ensures 0 <= mSampleRateFormat < VBAN_SR_MAXNUMBER
      ensures hostRate in VBanSRList ==>
        && VBanSRList[mSampleRateFormat] == hostRate
        && forall j :: mSampleRateFormat < j < VBAN_SR_MAXNUMBER ==> VBanSRList[j] != hostRate
      ensures hostRate !in VBanSRList ==> mSampleRateFormat == old(mSampleRateFormat)
      ensures mVbanBuffer[..VBAN_HEADER_SIZE]
           == EncodeHeader(StampedHeader(mChannelCount, mPacketChannelSize, mSampleRateFormat, mStreamName, 0))
      ensures mVbanBuffer[NAME_LAST_OFFSET] == 0
      ensures forall k :: VBAN_HEADER_SIZE <= k < mPacketSize ==>
        mVbanBuffer[k] == if k < old(mVbanBuffer.Length) then old(mVbanBuffer[k]) else 0
      ensures mChannelCount == old(mChannelCount) && mStreamName == old(mStreamName) && !mIsRunning
      ensures sent == old(sent) && pending == old(pending) && sizedChannels == old(sizedChannels)
    {
      SizePacket();
      var found;
      found, mSampleRateFormat := LastRateIndex(hostRate, mSampleRateFormat);
      StampHeader();
    }

    /**
     * start(): nothing when already running; when the destination address does
     * not parse, the socket is closed and the sender stays stopped. Otherwise the
     * packet is prepared for the channel count, and only then, after the header
     * already carries it, the channel count is clamped to 254.
     */
    method Start(addressValid: bool, hostRate: int)
      requires Valid()
      modifies this
      ensures Valid()
      ensures sent == old(sent) && mStreamName == old(mStreamName)
      ensures old(mIsRunning) || !addressValid ==>
        && mIsRunning == old(mIsRunning) && mVbanBuffer == old(mVbanBuffer)
        && mChannelCount == old(mChannelCount) && mSampleRateFormat == old(mSampleRateFormat)
        && mPacketChannelSize == old(mPacketChannelSize) && mAudioBufferSize == old(mAudioBufferSize)
        && mPacketSize == old(mPacketSize) && mPacketCounter == old(mPacketCounter)
        && mPacketWritePos == old(mPacketWritePos) && pending == old(pending)
        && sizedChannels == old(sizedChannels)
      ensures !old(mIsRunning) && addressValid ==>
        && mIsRunning && fresh(mVbanBuffer)
        && sizedChannels == old(mChannelCount)
        && mChannelCount == (if old(mChannelCount) > MAX_SENT_CHANNELS then MAX_SENT_CHANNELS else old(mChannelCount))
        && mPacketChannelSize == PacketChannelSize(old(mChannelCount))
        && mAudioBufferSize == mPacketChannelSize * old(mChannelCount)
        && 0 <= mAudioBufferSize <= VBAN_DATA_MAX_SIZE
        && mPacketSize == mAudioBufferSize + VBAN_HEADER_SIZE
        && mPacketCounter == 0 && mPacketWritePos == VBAN_HEADER_SIZE && pending == []
        && (hostRate in VBanSRList ==>
              VBanSRList[mSampleRateFormat] == hostRate
              && forall j :: mSampleRateFormat < j < VBAN_SR_MAXNUMBER ==> VBanSRList[j] != hostRate)
        && (hostRate !in VBanSRList ==> mSampleRateFormat == old(mSampleRateFormat))
        && mVbanBuffer[..VBAN_HEADER_SIZE]
           == EncodeHeader(StampedHeader(old(mChannelCount), mPacketChannelSize, mSampleRateFormat, mStreamName, 0))
    {
      if mIsRunning {
        return;
      }
      if !addressValid {
        return;
      }
      PreparePacket(hostRate);
      ghost var prepared := mVbanBuffer[..];
      sizedChannels := mChannelCount;
      pending := [];
      if mChannelCount > MAX_SENT_CHANNELS {
        mChannelCount := MAX_SENT_CHANNELS;
      }
      mIsRunning := true;
      assert mVbanBuffer[..] == prepared;
      assert LastStamped(mPacketCounter) == 0;
    }

    /** stop(): a running sender closes its socket and stops; nothing else changes. */
    method Stop()
      requires Valid()
      modifies this
      ensures Valid() && !mIsRunning
      ensures sent == old(sent) && pending == old(pending) && mVbanBuffer == old(mVbanBuffer)
      ensures mChannelCount == old(mChannelCount) && mStreamName == old(mStreamName)
      ensures mSampleRateFormat == old(mSampleRateFormat) && mPacketChannelSize == old(mPacketChannelSize)
      ensures mAudioBufferSize == old(mAudioBufferSize) && mPacketSize == old(mPacketSize)
      ensures mPacketCounter == old(mPacketCounter) && mPacketWritePos == old(mPacketWritePos)
      ensures sizedChannels == old(sizedChannels)
    {
      if mIsRunning {
        mIsRunning := false;
      }
    }

    /**
     * setupDSP(): a stopped sender is left alone; a running one is stopped and
     * started again: the packet is resized for the current (already clamped)
     * channel count, the rate index is searched again for the host rate, the
     * header is stamped anew and the frames not yet sent are dropped. When the
     * address no longer parses, the restart fails and the sender stays stopped.
     */
    method SetupDsp(addressValid: bool, hostRate: int)
      requires Valid()
      modifies this
      ensures sent == old(sent) && mStreamName == old(mStreamName)
      ensures 0 <= mSampleRateFormat < VBAN_SR_MAXNUMBER
      ensures !old(mIsRunning) || !addressValid ==>
        && !mIsRunning && mVbanBuffer == old(mVbanBuffer)
        && mChannelCount == old(mChannelCount) && mSampleRateFormat == old(mSampleRateFormat)
        && mPacketChannelSize == old(mPacketChannelSize) && mAudioBufferSize == old(mAudioBufferSize)
        && mPacketSize == old(mPacketSize) && mPacketCounter == old(mPacketCounter)
        && mPacketWritePos == old(mPacketWritePos) && pending == old(pending)
        && sizedChannels == old(sizedChannels)
      ensures old(mIsRunning) && addressValid ==>
        && mIsRunning && fresh(mVbanBuffer) && mVbanBuffer.Length == mPacketSize
        && mChannelCount == old(mChannelCount) && sizedChannels == old(mChannelCount)
        && mPacketChannelSize == PacketChannelSize(old(mChannelCount))
        && mAudioBufferSize == mPacketChannelSize * old(mChannelCount)
        && 0 <= mAudioBufferSize <= VBAN_DATA_MAX_SIZE
        && mPacketSize == mAudioBufferSize + VBAN_HEADER_SIZE
        && mPacketCounter == 0 && mPacketWritePos == VBAN_HEADER_SIZE && pending == []
        && (hostRate in VBanSRList ==>
              VBanSRList[mSampleRateFormat] == hostRate
              && forall j :: mSampleRateFormat < j < VBAN_SR_MAXNUMBER ==> VBanSRList[j] != hostRate)
        && (hostRate !in VBanSRList ==> mSampleRateFormat == old(mSampleRateFormat))
        && mVbanBuffer[..VBAN_HEADER_SIZE]
           == EncodeHeader(StampedHeader(old(mChannelCount), mPacketChannelSize, mSampleRateFormat, mStreamName, 0))
      ensures Valid()
    {
      if mIsRunning {
        Stop();
        Start(addressValid, hostRate);
      }
    }

    /**
     * sendPacket(): stamps the frame counter into the header, hands the header
     * and the frames written so far to the socket (whether or not sendto fails),
     * rewinds the cursor and counts the packet.
     */
    method SendPacket()
      requires Valid() && mIsRunning
      modifies this, mVbanBuffer
      ensures Valid() && mIsRunning && mVbanBuffer == old(mVbanBuffer)
      ensures sent == old(sent) + [Packet(sizedChannels, mSampleRateFormat, mStreamName, old(mPacketCounter), old(pending))]
      ensures sent[|sent| - 1] == mVbanBuffer[..old(mPacketWritePos)]
      ensures mPacketWritePos == VBAN_HEADER_SIZE && mPacketCounter == old(mPacketCounter) + 1 && pending == []
      ensures mChannelCount == old(mChannelCount) && mStreamName == old(mStreamName)
      ensures mSampleRateFormat == old(mSampleRateFormat) && mPacketChannelSize == old(mPacketChannelSize)
      ensures mAudioBufferSize == old(mAudioBufferSize) && mPacketSize == old(mPacketSize)
      ensures sizedChannels == old(sizedChannels)
      ensures mVbanBuffer[..] == old(mVbanBuffer[..])[..NU_FRAME_OFFSET]
                               + U32Le(old(mPacketCounter) % U32_MODULUS)
                               + old(mVbanBuffer[..])[VBAN_HEADER_SIZE..]
      ensures old(mPacketWritePos) - VBAN_HEADER_SIZE <= VBAN_DATA_MAX_SIZE
    {
      ghost var before := mVbanBuffer[..];
      StampFrameCounter(mVbanBuffer, mPacketCounter % U32_MODULUS);
      ghost var stamped := mVbanBuffer[..];
      RestampedPacket(before, stamped, sizedChannels, mPacketChannelSize, mSampleRateFormat, mStreamName,
                      LastStamped(mPacketCounter), mPacketCounter, mPacketWritePos, pending);
      sent := sent + [mVbanBuffer[..mPacketWritePos]];
      mPacketWritePos := VBAN_HEADER_SIZE;
      mPacketCounter := mPacketCounter + 1;
      pending := [];
      assert mVbanBuffer[..] == stamped;
      assert LastStamped(mPacketCounter) == old(mPacketCounter);
    }

    /**
     * The accumulation part of operator() on a running sender: the block's
     * frames written at the cursor and the cursor moved past them.
     */
    method Accumulate(input: seq<seq<int16>>, frameCount: nat)
      requires Valid() && mIsRunning
      requires mChannelCount <= |input| && forall c :: 0 <= c < mChannelCount ==> frameCount <= |input[c]|
      requires mPacketWritePos + 2 * (frameCount * mChannelCount) <= mPacketSize
      modifies this, mVbanBuffer
      ensures mIsRunning && mVbanBuffer == old(mVbanBuffer)
      ensures mChannelCount == old(mChannelCount) && mStreamName == old(mStreamName)
      ensures mSampleRateFormat == old(mSampleRateFormat) && mPacketChannelSize == old(mPacketChannelSize)
      ensures mAudioBufferSize == old(mAudioBufferSize) && mPacketSize == old(mPacketSize)
      ensures sizedChannels == old(sizedChannels) && sent == old(sent) && mPacketCounter == old(mPacketCounter)
      ensures mPacketWritePos == old(mPacketWritePos) + 2 * (frameCount * mChannelCount)
      ensures pending == old(pending) + BlockFrames(input, mChannelCount, frameCount)
      ensures mVbanBuffer[..] == old(mVbanBuffer[..])[..old(mPacketWritePos)]
                               + FramesBytes(BlockFrames(input, mChannelCount, frameCount))
                               + old(mVbanBuffer[..])[mPacketWritePos..]
      ensures Valid()
    {
      ghost var block := BlockFrames(input, mChannelCount, frameCount);
      ghost var before := mVbanBuffer[..];
      var pos := WriteBlock(mVbanBuffer, mPacketWritePos, input, mChannelCount, frameCount);
      AppendedFrames(before, mVbanBuffer[..], mPacketWritePos, pos, mChannelCount, pending, block);
      mPacketWritePos := pos;
      pending := pending + block;
    }

    /**
     * operator(): nothing while stopped. Otherwise every frame of the block, in
     * order, is written at the cursor as one sample per channel, low byte first;
     * the whole block is written before the cursor is compared with the packet
     * size, and a full packet is sent. The source never checks that the block
     * fits in what is left of the packet: that is the second precondition.
     */
    method Process(input: seq<seq<int16>>, frameCount: nat)
      requires Valid()
      requires mIsRunning ==> mChannelCount <= |input| && forall c :: 0 <= c < mChannelCount ==> frameCount <= |input[c]|
      requires mIsRunning ==> mPacketWritePos + 2 * (frameCount * mChannelCount) <= mPacketSize
      modifies this, mVbanBuffer
      ensures mIsRunning == old(mIsRunning) && mVbanBuffer == old(mVbanBuffer)
      ensures mChannelCount == old(mChannelCount) && mStreamName == old(mStreamName)
      ensures mSampleRateFormat == old(mSampleRateFormat) && mPacketChannelSize == old(mPacketChannelSize)
      ensures mAudioBufferSize == old(mAudioBufferSize) && mPacketSize == old(mPacketSize)
      ensures sizedChannels == old(sizedChannels)
      ensures !old(mIsRunning) ==>
        && sent == old(sent) && pending == old(pending) && mPacketCounter == old(mPacketCounter)
        && mPacketWritePos == old(mPacketWritePos) && mVbanBuffer[..] == old(mVbanBuffer[..])
      ensures old(mIsRunning) ==> old(mPacketWritePos) + 2 * (frameCount * old(mChannelCount)) <= mVbanBuffer.Length
      ensures old(mIsRunning) ==>
        var block := BlockFrames(input, old(mChannelCount), frameCount);
        var end := old(mPacketWritePos) + 2 * (frameCount * old(mChannelCount));
        var written := old(mVbanBuffer[..])[..old(mPacketWritePos)] + FramesBytes(block) + old(mVbanBuffer[..])[end..];
        if end >= old(mPacketSize) then
          && end == old(mPacketSize)
          && sent == old(sent) + [Packet(sizedChannels, mSampleRateFormat, mStreamName, old(mPacketCounter),
                                         old(pending) + block)]
          && pending == [] && mPacketWritePos == VBAN_HEADER_SIZE && mPacketCounter == old(mPacketCounter) + 1
          && sent[|sent| - 1] == mVbanBuffer[..]
          && mVbanBuffer[..] == Restamped(written, old(mPacketCounter))
        else
          && sent == old(sent) && pending == old(pending) + block
          && mPacketWritePos == end && mPacketCounter == old(mPacketCounter)
          && mVbanBuffer[..] == written
      ensures Valid()
    {
      if !mIsRunning {
        return;
      }
      var packetSize := mAudioBufferSize + VBAN_HEADER_SIZE;
      Accumulate(input, frameCount);
      if mPacketWritePos >= packetSize {
        SendPacket();
      }
    }
  }
}

/**
 * The two objects against each other: a packet laid out the way the sender lays
 * it out (the header start() stamps, with the frame counter sendPacket() writes,
 * followed by one packet's worth of frames) passes every test of the receiver's
 * parsePacket and decodes to the samples that were sent, provided the receive
 * call delivers it whole and checkPacket reads the packet's own header.
 */
module VbanLoopback {
  import opened VbanHeader
  import opened VbanSamples
  import opened VbanSend
  import opened VbanReceive

  /** Every channel count the sender does not clamp gets at least one sample per channel. */
  lemma PacketChannelSizeAtLeastOneSample(channelCount: nat)
    requires 1 <= channelCount <= MAX_SENT_CHANNELS
    ensures 2 <= PacketChannelSize(channelCount)
  {
    if VBAN_SAMPLES_MAX_NB * 2 * channelCount > VBAN_DATA_MAX_SIZE {
      FloorQuotientMax(1, channelCount * 2, VBAN_DATA_MAX_SIZE);
    }
  }

  lemma MulCancel(a: nat, b: nat, k: nat)
    requires k > 0 && a * k == b * k
    ensures a == b
  {
    if a < b {
      MulDistrib(a, b - a, k);
      MulMono(1, b - a, k);
    } else if b < a {
      MulDistrib(b, a - b, k);
      MulMono(1, a - b, k);
    }
  }

  /**
   * A packet the sender sends once its buffer is exactly full carries half a
   * channel size of frames: one sample per channel for every frame.
   */
  lemma FullPacketFrameCount(channelCount: nat, frames: seq<seq<int16>>)
    requires 1 <= channelCount && FramesOfWidth(frames, channelCount)
    requires |FramesBytes(frames)| == PacketChannelSize(channelCount) * channelCount
    ensures 2 * |frames| == PacketChannelSize(channelCount)
  {
    var n := |frames|;
    FramesBytesLength(frames, channelCount);
    MulDistrib(n, n, channelCount);
    assert (n + n) * channelCount == PacketChannelSize(channelCount) * channelCount;
    PacketChannelSizeFits(channelCount);
    MulCancel(n + n, PacketChannelSize(channelCount), channelCount);
  }

  /** Conversely, half a channel size of frames fills the packet's payload exactly. */
  lemma FullPacketPayload(channelCount: nat, frames: seq<seq<int16>>)
    requires FramesOfWidth(frames, channelCount) && 2 * |frames| == PacketChannelSize(channelCount)
    ensures |FramesBytes(frames)| == 2 * (|frames| * channelCount) == PacketChannelSize(channelCount) * channelCount
  {
    FramesBytesLength(frames, channelCount);
    MulDistrib(|frames|, |frames|, channelCount);
  }

  /**
   * The header the sender stamps reads back with the sender's channel count, one
   * sample per channel for each frame of a full packet, the 16-bit integer
   * resolution, the rate index and the frame counter modulo 2^32, whatever
   * follows the packet in the buffer.
   */
  lemma SentHeaderReadsBack(channelCount: nat, srFormat: nat, name: seq<byte>, counter: nat,
                            frames: seq<seq<int16>>, tail: seq<byte>)
    requires 1 <= channelCount <= MAX_SENT_CHANNELS && srFormat < VBAN_SR_MAXNUMBER
    requires 2 * |frames| == PacketChannelSize(channelCount)
    ensures var h := DecodeHeader(Packet(channelCount, srFormat, name, counter, frames) + tail);
      && ChannelCount(h) == channelCount
      && SamplesPerChannel(h) == |frames|
      && SrIndex(h) == srFormat && SubProtocol(h) == VBAN_PROTOCOL_AUDIO
      && Codec(h) == VBAN_CODEC_PCM && BitResolution(h) == VBAN_BITFMT_16_INT
      && h.magic == MAGIC
      && h.nuFrame == counter % U32_MODULUS
      && h.streamName[VBAN_STREAM_NAME_SIZE - 1] == 0
  {
    var h := StampedHeader(channelCount, PacketChannelSize(channelCount), srFormat, name, counter);
    assert DecodeHeader(Packet(channelCount, srFormat, name, counter, frames) + tail) == h by {
      DecodeEncodeHeader(h, FramesBytes(frames) + tail);
      assert Packet(channelCount, srFormat, name, counter, frames) + tail == EncodeHeader(h) + (FramesBytes(frames) + tail);
    }
    PacketChannelSizeFits(channelCount);
    PacketChannelSizeAtLeastOneSample(channelCount);
  }

  /** The stream name a receiver reads from a sent packet is the sender's name cut to 15 bytes. */
  lemma SentStreamName(channelCount: nat, srFormat: nat, name: seq<byte>, counter: nat,
                       frames: seq<seq<int16>>, tail: seq<byte>)
    requires srFormat < VBAN_SR_MAXNUMBER
    ensures StreamNameOf(Packet(channelCount, srFormat, name, counter, frames) + tail)
         == Truncate(CName(name), VBAN_STREAM_NAME_SIZE - 1)
  {
    var q := Packet(channelCount, srFormat, name, counter, frames);
    var h := StampedHeader(channelCount, PacketChannelSize(channelCount), srFormat, name, counter);
    var rest := U32Le(h.nuFrame) + FramesBytes(frames) + tail;
    assert (q + tail)[8..] == StrNCpy(name, VBAN_STREAM_NAME_SIZE - 1) + [0] + rest by {
      assert q == EncodeHeader(h) + FramesBytes(frames);
      assert EncodeHeader(h) == h.magic + [h.formatSR, h.formatNbs, h.formatNbc, h.formatBit] + h.streamName + U32Le(h.nuFrame);
    }
    StrNCpyReadsBack(name, rest);
  }

  /**
   * A full packet from the sender passes every test of parsePacket in a receiver
   * configured with the C string of the sender's name cut to 15 bytes, when the
   * check reads the packet's own header; as written, exactly when byte 4 of the
   * vector object names a table index. Its payload is there and has 2-byte samples.
   */
  lemma SentPacketAccepted(channelCount: nat, srFormat: nat, name: seq<byte>, counter: nat,
                           frames: seq<seq<int16>>, tail: seq<byte>, vectorObject: seq<byte>)
    requires 1 <= channelCount <= MAX_SENT_CHANNELS && srFormat < VBAN_SR_MAXNUMBER
    requires 2 * |frames| == PacketChannelSize(channelCount) && FramesOfWidth(frames, channelCount)
    requires |vectorObject| >= 8
    ensures var p := Packet(channelCount, srFormat, name, counter, frames) + tail;
      var stream := Truncate(CName(name), VBAN_STREAM_NAME_SIZE - 1);
      && Decodable(p, p, stream)
      && (Decodable(p, vectorObject, stream) <==> vectorObject[4] % 0x20 < VBAN_SR_MAXNUMBER)
      && SampleSizeOf(p) == 2
  {
    var p := Packet(channelCount, srFormat, name, counter, frames) + tail;
    var stream := Truncate(CName(name), VBAN_STREAM_NAME_SIZE - 1);
    var h := DecodeHeader(p);
    SentHeaderReadsBack(channelCount, srFormat, name, counter, frames, tail);
    assert p[4] == h.formatSR;
    assert PayloadFits(p) by {
      FramesBytesLength(frames, channelCount);
    }
    assert StreamNameOf(p) == stream by {
      SentStreamName(channelCount, srFormat, name, counter, frames, tail);
    }
    assert Accepts(p, p, stream);
  }

  /**
   * Every sample of a full packet from the sender is read back by the receiver's
   * de-interleaving at the position of its frame and channel.
   */
  lemma SentSamplesReadBack(channelCount: nat, srFormat: nat, name: seq<byte>, counter: nat,
                            frames: seq<seq<int16>>, tail: seq<byte>, i: nat, c: nat)
    requires 1 <= channelCount <= MAX_SENT_CHANNELS && srFormat < VBAN_SR_MAXNUMBER
    requires 2 * |frames| == PacketChannelSize(channelCount) && FramesOfWidth(frames, channelCount)
    requires i < |frames| && c < channelCount
    ensures var p := Packet(channelCount, srFormat, name, counter, frames) + tail;
      && VBAN_HEADER_SIZE + 2 * (|frames| * channelCount) <= |p|
      && SampleAt(p, |frames|, channelCount, i, c) == frames[i][c]
  {
    var q := Packet(channelCount, srFormat, name, counter, frames);
    var p := q + tail;
    var off := SampleOffset(i, c, channelCount);
    FramesBytesAt(frames, channelCount, i, c);
    assert p[VBAN_HEADER_SIZE + off] == LowByte(frames[i][c]) by {
      assert p[VBAN_HEADER_SIZE + off] == q[VBAN_HEADER_SIZE..][off];
    }
    assert p[VBAN_HEADER_SIZE + off + 1] == HighByte(frames[i][c]) by {
      assert p[VBAN_HEADER_SIZE + off + 1] == q[VBAN_HEADER_SIZE..][off + 1];
    }
    SampleRoundTrip(frames[i][c]);
  }

  /**
   * parsePacket with the corrected check (the packet's own header as the view),
   * given a full packet from the sender (followed by anything) and the sender's
   * stream name as the receiver sees it, returns one buffer per sent channel, each
   * holding that channel's samples in frame order.
   */
  method ReceiveSent(channelCount: nat, srFormat: nat, name: seq<byte>, counter: nat,
                     frames: seq<seq<int16>>, tail: seq<byte>) returns (buffers: seq<seq<int16>>)
    requires 1 <= channelCount <= MAX_SENT_CHANNELS && srFormat < VBAN_SR_MAXNUMBER
    requires 2 * |frames| == PacketChannelSize(channelCount) && FramesOfWidth(frames, channelCount)
    ensures |buffers| == channelCount
    ensures forall c :: 0 <= c < channelCount ==> |buffers[c]| == |frames|
    ensures forall c, i :: 0 <= c < channelCount && 0 <= i < |frames| ==> buffers[c][i] == frames[i][c]
  {
    var p := Packet(channelCount, srFormat, name, counter, frames) + tail;
    SentHeaderReadsBack(channelCount, srFormat, name, counter, frames, tail);
    SentPacketAccepted(channelCount, srFormat, name, counter, frames, tail, p);
    buffers := ParsePacket(p, p, Truncate(CName(name), VBAN_STREAM_NAME_SIZE - 1));
    forall c, i | 0 <= c < channelCount && 0 <= i < |frames|
      ensures buffers[c][i] == frames[i][c]
    {
      SentSamplesReadBack(channelCount, srFormat, name, counter, frames, tail, i, c);
    }
  }

  /**
   * One audio block through a running sender, then the packet it sent, if any,
   * through parsePacket with the corrected check (the packet's own header as the
   * view): when the block completes a packet, the bytes sent are
   * the buffer's, and the receiver gets back every frame the packet collected,
   * the earlier pending ones and this block's, one buffer per channel; otherwise
   * nothing is sent or decoded.
   */
  method SendThenDecode(s: VbanSender, input: seq<seq<int16>>, frameCount: nat) returns (buffers: seq<seq<int16>>)
    requires s.Valid() && s.mIsRunning && 1 <= s.sizedChannels <= MAX_SENT_CHANNELS
    requires s.mChannelCount <= |input| && forall c :: 0 <= c < s.mChannelCount ==> frameCount <= |input[c]|
    requires s.mPacketWritePos + 2 * (frameCount * s.mChannelCount) <= s.mPacketSize
    modifies s, s.mVbanBuffer
    ensures s.Valid() && s.mChannelCount == old(s.mChannelCount)
    ensures s.mPacketCounter == old(s.mPacketCounter) ==>
      && buffers == [] && s.sent == old(s.sent)
      && s.pending == old(s.pending) + BlockFrames(input, old(s.mChannelCount), frameCount)
    ensures s.mPacketCounter != old(s.mPacketCounter) ==>
      var frames := old(s.pending) + BlockFrames(input, old(s.mChannelCount), frameCount);
      && FramesOfWidth(frames, s.mChannelCount)
      && s.sent == old(s.sent) + [s.mVbanBuffer[..]]
      && s.pending == []
      && |buffers| == s.mChannelCount
      && (forall c :: 0 <= c < |buffers| ==> |buffers[c]| == |frames|)
      && forall c, i :: 0 <= c < |buffers| && 0 <= i < |frames| ==> buffers[c][i] == frames[i][c]
  {
    var channels := s.mChannelCount;
    ghost var block := BlockFrames(input, channels, frameCount);
    ghost var frames := s.pending + block;
    var counter := s.mPacketCounter;
    FramesBytesLength(s.pending, channels);
    s.Process(input, frameCount);
    buffers := [];
    if s.mPacketCounter == counter {
      return;
    }
    var p := s.mVbanBuffer[..];
    assert p == Packet(channels, s.mSampleRateFormat, s.mStreamName, counter, frames);
    assert FramesOfWidth(frames, channels);
    FramesBytesLength(block, channels);
    FramesBytesConcat(old(s.pending), block);
    FramesBytesLength(frames, channels);
    MulDistrib(|old(s.pending)|, frameCount, channels);
    FullPacketFrameCount(channels, frames);
    assert p + [] == p;
    SentPacketAccepted(channels, s.mSampleRateFormat, s.mStreamName, counter, frames, [], p);
    buffers := ParsePacket(p, p, Truncate(CName(s.mStreamName), VBAN_STREAM_NAME_SIZE - 1));
    SentHeaderReadsBack(channels, s.mSampleRateFormat, s.mStreamName, counter, frames, []);
    forall c, i | 0 <= c < channels && 0 <= i < |frames|
      ensures buffers[c][i] == frames[i][c]
    {
      SentSamplesReadBack(channels, s.mSampleRateFormat, s.mStreamName, counter, frames, [], i, c);
    }
  }

  // ---------------------------------------------------------------------------
  // Through the receive call
  // ---------------------------------------------------------------------------

  /**
   * Two buffers that agree on a header whose name field ends in a NUL read back
   * the same header and stream name, and parsePacket's tests treat them alike.
   */
  lemma HeaderPrefixDecides(a: seq<byte>, b: seq<byte>, stream: seq<byte>)
    requires |a| >= VBAN_HEADER_SIZE && |b| >= VBAN_HEADER_SIZE
    requires a[..VBAN_HEADER_SIZE] == b[..VBAN_HEADER_SIZE] && a[NAME_LAST_OFFSET] == 0
    ensures DecodeHeader(a) == DecodeHeader(b) && StreamNameOf(a) == StreamNameOf(b)
    ensures Accepts(a, a, stream) == Accepts(b, b, stream) && SampleSizeOf(a) == SampleSizeOf(b)
  {
    assert a[4] == a[..VBAN_HEADER_SIZE][4] && b[4] == b[..VBAN_HEADER_SIZE][4];
    assert a[0..4] == a[..VBAN_HEADER_SIZE][0..4];
    assert b[0..4] == b[..VBAN_HEADER_SIZE][0..4];
    assert a[8..24] == a[..VBAN_HEADER_SIZE][8..24];
    assert b[8..24] == b[..VBAN_HEADER_SIZE][8..24];
    assert a[24..28] == a[..VBAN_HEADER_SIZE][24..28];
    assert b[24..28] == b[..VBAN_HEADER_SIZE][24..28];
    assert a[8..][..16] == a[8..24] && b[8..][..16] == b[8..24];
    CNameAgree(a[8..], b[8..], VBAN_STREAM_NAME_SIZE - 1);
  }

  /**
   * A datagram longer than the receive limit whose header passes parsePacket's
   * tests leaves a buffer that passes them too, with the same header, and holds
   * from the limit on what the buffer held before.
   */
  lemma TruncatedHeaderDecides(p: seq<byte>, buffer: seq<byte>, stream: seq<byte>)
    requires VBAN_DATA_MAX_SIZE < |p| <= |buffer| && p[NAME_LAST_OFFSET] == 0
    requires Accepts(p, p, stream) && SampleSizeOf(p) > 0 && PayloadFits(p)
    ensures var r := Received(buffer, p, VBAN_DATA_MAX_SIZE);
      && Decodable(r, r, stream) && DecodeHeader(r) == DecodeHeader(p)
      && r[VBAN_DATA_MAX_SIZE..] == buffer[VBAN_DATA_MAX_SIZE..]
  {
    var r := Received(buffer, p, VBAN_DATA_MAX_SIZE);
    assert r[..VBAN_HEADER_SIZE] == p[..VBAN_HEADER_SIZE];
    HeaderPrefixDecides(p, r, stream);
  }

  /** A full 3-channel packet: 239 frames, 1462 bytes, accepted with a NUL-ended name field. */
  lemma ThreeChannelPacket(srFormat: nat, name: seq<byte>, counter: nat, frames: seq<seq<int16>>)
    requires srFormat < VBAN_SR_MAXNUMBER
    requires 2 * |frames| == PacketChannelSize(3) && FramesOfWidth(frames, 3)
    ensures var p := Packet(3, srFormat, name, counter, frames);
      var stream := Truncate(CName(name), VBAN_STREAM_NAME_SIZE - 1);
      && |frames| == 239 && |p| == 1462 && p[NAME_LAST_OFFSET] == 0
      && Accepts(p, p, stream) && SampleSizeOf(p) == 2 && PayloadFits(p)
  {
    var p := Packet(3, srFormat, name, counter, frames);
    assert PacketChannelSize(3) == 478;
    FramesBytesLength(frames, 3);
    assert p + [] == p;
    SentHeaderReadsBack(3, srFormat, name, counter, frames, []);
    SentPacketAccepted(3, srFormat, name, counter, frames, [], p);
    assert p[NAME_LAST_OFFSET] == DecodeHeader(p).streamName[VBAN_STREAM_NAME_SIZE - 1];
  }

  /**
   * A full 3-channel packet is 1462 bytes; a receive call limited to
   * VBAN_DATA_MAX_SIZE keeps 1436 of them, the buffer still passes every test,
   * and the last sample of the third channel is read from the zero bytes the
   * resize left after them, whatever was sent.
   */
  lemma ThreeChannelPacketLosesTail(srFormat: nat, name: seq<byte>, counter: nat,
                                    frames: seq<seq<int16>>, buffer: seq<byte>)
    requires srFormat < VBAN_SR_MAXNUMBER
    requires 2 * |frames| == PacketChannelSize(3) && FramesOfWidth(frames, 3)
    requires |buffer| == RECV_BUF_SIZE
    requires forall k :: VBAN_DATA_MAX_SIZE <= k < |buffer| ==> buffer[k] == 0
    ensures var p := Packet(3, srFormat, name, counter, frames);
      var r := Received(buffer, p, VBAN_DATA_MAX_SIZE);
      var stream := Truncate(CName(name), VBAN_STREAM_NAME_SIZE - 1);
      && |p| == 1462
      && Decodable(r, r, stream)
      && SampleAt(r, |frames|, 3, |frames| - 1, 2) == 0
  {
    var r := Received(buffer, Packet(3, srFormat, name, counter, frames), VBAN_DATA_MAX_SIZE);
    ThreeChannelReceived(srFormat, name, counter, frames, buffer);
    assert buffer[1460] == 0 && buffer[1461] == 0;
    LastThirdChannelSampleAt(r);
  }

  /** After the limited receive, bytes 1460-1461 of a full 3-channel packet are the buffer's own. */
  lemma ThreeChannelReceived(srFormat: nat, name: seq<byte>, counter: nat,
                             frames: seq<seq<int16>>, buffer: seq<byte>)
    requires srFormat < VBAN_SR_MAXNUMBER
    requires 2 * |frames| == PacketChannelSize(3) && FramesOfWidth(frames, 3)
    requires |buffer| == RECV_BUF_SIZE
    ensures var p := Packet(3, srFormat, name, counter, frames);
      var r := Received(buffer, p, VBAN_DATA_MAX_SIZE);
      && |p| == 1462 && |frames| == 239 && |r| == RECV_BUF_SIZE
      && Decodable(r, r, Truncate(CName(name), VBAN_STREAM_NAME_SIZE - 1))
      && r[1460] == buffer[1460] && r[1461] == buffer[1461]
  {
    var p := Packet(3, srFormat, name, counter, frames);
    var r := Received(buffer, p, VBAN_DATA_MAX_SIZE);
    ThreeChannelPacket(srFormat, name, counter, frames);
    TruncatedHeaderDecides(p, buffer, Truncate(CName(name), VBAN_STREAM_NAME_SIZE - 1));
    assert r[1460] == r[VBAN_DATA_MAX_SIZE..][24] && r[1461] == r[VBAN_DATA_MAX_SIZE..][25];
  }

  /** In a 3-channel packet of 239 frames, the last sample of channel 3 sits at bytes 1460-1461. */
  lemma LastThirdChannelSampleAt(r: seq<byte>)
    requires |r| >= 1462 && r[1460] == 0 && r[1461] == 0
    ensures SampleAt(r, 239, 3, 238, 2) == 0
  {
    assert SampleOffset(238, 2, 3) == 1432;
  }

  /**
   * Received with the protocol's maximum datagram size as the limit, a full
   * packet of every channel count the sender does not clamp reaches the parser
   * whole: it passes the corrected check and every sample reads back.
   */
  lemma ProtocolSizedReceiveKeepsPacket(channelCount: nat, srFormat: nat, name: seq<byte>, counter: nat,
                                        frames: seq<seq<int16>>, buffer: seq<byte>, i: nat, c: nat)
    requires 1 <= channelCount <= MAX_SENT_CHANNELS && srFormat < VBAN_SR_MAXNUMBER
    requires 2 * |frames| == PacketChannelSize(channelCount) && FramesOfWidth(frames, channelCount)
    requires |buffer| == RECV_BUF_SIZE
    requires i < |frames| && c < channelCount
    ensures var r := Received(buffer, Packet(channelCount, srFormat, name, counter, frames), VBAN_PROTOCOL_MAX_SIZE);
      && Decodable(r, r, Truncate(CName(name), VBAN_STREAM_NAME_SIZE - 1))
      && VBAN_HEADER_SIZE + 2 * (|frames| * channelCount) <= |r|
      && SampleAt(r, |frames|, channelCount, i, c) == frames[i][c]
  {
    var p := Packet(channelCount, srFormat, name, counter, frames);
    FullPacketPayload(channelCount, frames);
    PacketChannelSizeFits(channelCount);
    assert |p| <= VBAN_PROTOCOL_MAX_SIZE;
    var tail := buffer[|p|..];
    assert Received(buffer, p, VBAN_PROTOCOL_MAX_SIZE) == p + tail;
    SentPacketAccepted(channelCount, srFormat, name, counter, frames, tail, p + tail);
    SentSamplesReadBack(channelCount, srFormat, name, counter, frames, tail, i, c);
  }

  /**
   * A full packet from the sender that fits the receive limit arrives whole:
   * the buffer a receive call leaves passes parsePacket's tests exactly when
   * byte 4 of the vector object names a table index, and every sample reads back.
   */
  lemma DataSizedReceiveKeepsShortPacket(channelCount: nat, srFormat: nat, name: seq<byte>, counter: nat,
                                         frames: seq<seq<int16>>, buffer: seq<byte>, vectorObject: seq<byte>)
    requires 1 <= channelCount <= MAX_SENT_CHANNELS && srFormat < VBAN_SR_MAXNUMBER
    requires 2 * |frames| == PacketChannelSize(channelCount) && FramesOfWidth(frames, channelCount)
    requires VBAN_HEADER_SIZE + PacketChannelSize(channelCount) * channelCount <= VBAN_DATA_MAX_SIZE
    requires |buffer| == RECV_BUF_SIZE && |vectorObject| >= 8
    ensures var r := Received(buffer, Packet(channelCount, srFormat, name, counter, frames), VBAN_DATA_MAX_SIZE);
      && (Decodable(r, vectorObject, Truncate(CName(name), VBAN_STREAM_NAME_SIZE - 1)) <==> vectorObject[4] % 0x20 < VBAN_SR_MAXNUMBER)
      && SamplesPerChannel(DecodeHeader(r)) == |frames| && ChannelCount(DecodeHeader(r)) == channelCount
      && VBAN_HEADER_SIZE + 2 * (|frames| * channelCount) <= |r|
      && forall c, i :: 0 <= c < channelCount && 0 <= i < |frames| ==> SampleAt(r, |frames|, channelCount, i, c) == frames[i][c]
  {
    var p := Packet(channelCount, srFormat, name, counter, frames);
    FullPacketPayload(channelCount, frames);
    var tail := buffer[|p|..];
    assert Received(buffer, p, VBAN_DATA_MAX_SIZE) == p + tail;
    SentHeaderReadsBack(channelCount, srFormat, name, counter, frames, tail);
    SentPacketAccepted(channelCount, srFormat, name, counter, frames, tail, vectorObject);
    forall c, i | 0 <= c < channelCount && 0 <= i < |frames|
      ensures SampleAt(p + tail, |frames|, channelCount, i, c) == frames[i][c]
    {
      SentSamplesReadBack(channelCount, srFormat, name, counter, frames, tail, i, c);
    }
  }

  /**
   * A listening receiver handed a full packet from the sender that fits the
   * receive limit: the buffers it decodes are the frames that were sent, one per
   * channel, when byte 4 of the vector object names a table index, and nothing
   * otherwise.
   */
  method ReceiveFromSender(r: Receiver, channelCount: nat, srFormat: nat, name: seq<byte>, counter: nat,
                           frames: seq<seq<int16>>, vectorObject: seq<byte>) returns (buffers: seq<seq<int16>>)
    requires r.Valid() && r.mIsRecieving && r.mSockfd != 0
    requires r.mStream == Truncate(CName(name), VBAN_STREAM_NAME_SIZE - 1)
    requires 1 <= channelCount <= MAX_SENT_CHANNELS && srFormat < VBAN_SR_MAXNUMBER
    requires 2 * |frames| == PacketChannelSize(channelCount) && FramesOfWidth(frames, channelCount)
    requires VBAN_HEADER_SIZE + PacketChannelSize(channelCount) * channelCount <= VBAN_DATA_MAX_SIZE
    requires |vectorObject| >= 8
    modifies r
    ensures r.Valid()
    ensures vectorObject[4] % 0x20 >= VBAN_SR_MAXNUMBER ==> buffers == []
    ensures vectorObject[4] % 0x20 < VBAN_SR_MAXNUMBER ==>
      && |buffers| == channelCount
      && (forall c :: 0 <= c < channelCount ==> |buffers[c]| == |frames|)
      && forall c, i :: 0 <= c < channelCount && 0 <= i < |frames| ==> buffers[c][i] == frames[i][c]
  {
    var p := Packet(channelCount, srFormat, name, counter, frames);
    FramesBytesLength(frames, channelCount);
    DataSizedReceiveKeepsShortPacket(channelCount, srFormat, name, counter, frames, r.mRecvBuffer, vectorObject);
    buffers := r.Process(p, false, vectorObject);
  }
}

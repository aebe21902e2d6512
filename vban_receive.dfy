/**
 * The receiving object: header validation (checkPacket, checkPcmPacket), the
 * sample-rate lookup, the stream-name filter and the de-interleaving of 16-bit
 * samples into one buffer per channel (parsePacket), and the receiver's
 * sample-rate index search at socket start and DSP setup.
 *
 * The datagram a receive call delivers is a parameter; the socket calls around
 * it are not part of this model. Decoded samples stay 16-bit integers: the
 * final division by 32768 is not modelled.
 */
module VbanReceive {
  import opened VbanHeader
  import opened VbanSamples

  datatype Option<T> = None | Some(value: T)

  // ---------------------------------------------------------------------------
  // Header validation
  // ---------------------------------------------------------------------------

  /** The tests checkPacket makes on the packet's own header: magic, audio sub-protocol, PCM codec. */
  predicate AudioPcmFormat(h: Header)
  {
    && h.magic == MAGIC
    && SubProtocol(h) == VBAN_PROTOCOL_AUDIO
    && Codec(h) == VBAN_CODEC_PCM
  }

  /** An audio PCM header whose sample-rate index names an entry of the rate table. */
  predicate AudioPcmHeader(h: Header)
  {
    AudioPcmFormat(h) && SrIndex(h) < VBAN_SR_MAXNUMBER
  }

  /**
   * checkPcmPacket: lays the header over whatever memory it is handed and
   * rejects a bit resolution (format_bit, offset 7) at or above the maximum and
   * a sample-rate index (format_SR, offset 4) at or above the table size. The
   * resolution field is three bits wide, so only the rate index can reject.
   */
  function CheckPcmPacket(view: seq<byte>): (ok: bool)
    requires |view| >= 8
    ensures ok <==> view[4] % 0x20 < VBAN_SR_MAXNUMBER
  {
    var bitResolution := view[7] % 0x08;
    var srFormat := view[4] % 0x20;
    if bitResolution >= VBAN_BIT_RESOLUTION_MAX then false
    else if srFormat >= VBAN_SR_MAXNUMBER then false
    else true
  }

  /**
   * checkPacket as written: a short-circuit chain. A len above the header size is
   * rejected (parsePacket always passes the header size itself); the magic must
   * be "VBAN"; a format_bit other than 16-bit integer is only reported; the
   * channel-count test cannot fail; every sub-protocol but audio is rejected; a
   * codec other than PCM is rejected. These tests read the packet. The last one,
   * checkPcmPacket, is handed the vector object rather than the packet bytes it
   * owns: pcmView is the memory of that object, so its bytes 4 and 7 decide.
   */
  function CheckPacket(buf: seq<byte>, pcmView: seq<byte>, len: int): (ok: bool)
    requires |buf| >= VBAN_HEADER_SIZE && |pcmView| >= 8
    ensures ok <==> len <= VBAN_HEADER_SIZE && AudioPcmFormat(DecodeHeader(buf)) && pcmView[4] % 0x20 < VBAN_SR_MAXNUMBER
  {
    var hdr := DecodeHeader(buf);
    if len > VBAN_HEADER_SIZE then false
    else if hdr.magic != MAGIC then false
    else if hdr.formatNbc + 1 < 1 then false
    else if SubProtocol(hdr) != VBAN_PROTOCOL_AUDIO then false
    else if Codec(hdr) != VBAN_CODEC_PCM then false
    else CheckPcmPacket(pcmView)
  }

  /** checkPacket as evidently intended: checkPcmPacket reads the packet's own header. */
  function CheckPacketCorrected(buf: seq<byte>, len: int): (ok: bool)
    requires |buf| >= VBAN_HEADER_SIZE
    ensures ok <==> len <= VBAN_HEADER_SIZE && AudioPcmHeader(DecodeHeader(buf))
  {
    CheckPacket(buf, buf, len)
  }

  /**
   * The two ways the last test departs from the packet: a header whose rate index
   * is 31 passes when byte 4 of the vector object holds a table index (the rate
   * lookup then finds nothing), and a valid 48 kHz header fails when that byte
   * does not.
   */
  lemma CheckPacketReadsVectorObject()
    ensures var bad := MAGIC + [0x1F, 0, 0, VBAN_BITFMT_16_INT] + Zeros(20);
      && CheckPacket(bad, Zeros(8), VBAN_HEADER_SIZE)
      && !CheckPacketCorrected(bad, VBAN_HEADER_SIZE)
    ensures var good := MAGIC + [0x03, 0, 0, VBAN_BITFMT_16_INT] + Zeros(20);
      && !CheckPacket(good, Zeros(4) + [0x1F] + Zeros(3), VBAN_HEADER_SIZE)
      && CheckPacketCorrected(good, VBAN_HEADER_SIZE)
      && VBanSRList[SrIndex(DecodeHeader(good))] == 48000
  {
    var bad := MAGIC + [0x1F, 0, 0, VBAN_BITFMT_16_INT] + Zeros(20);
    assert DecodeHeader(bad).formatSR == 0x1F && DecodeHeader(bad).formatBit == 1;
    assert DecodeHeader(bad).magic == MAGIC;
    var good := MAGIC + [0x03, 0, 0, VBAN_BITFMT_16_INT] + Zeros(20);
    assert DecodeHeader(good).formatSR == 0x03 && DecodeHeader(good).formatBit == 1;
    assert DecodeHeader(good).magic == MAGIC;
  }

  /** A header is accepted whatever its resolution bits say, 16-bit or not, by either check. */
  lemma ResolutionOnlyReported(buf: seq<byte>, pcmView: seq<byte>, len: int, bits: byte)
    requires |buf| >= VBAN_HEADER_SIZE && |pcmView| >= 8
    requires Codec(DecodeHeader(buf[7 := bits])) == Codec(DecodeHeader(buf))
    ensures CheckPacket(buf[7 := bits], pcmView, len) == CheckPacket(buf, pcmView, len)
    ensures CheckPacketCorrected(buf[7 := bits], len) == CheckPacketCorrected(buf, len)
  {
    var h, h' := DecodeHeader(buf), DecodeHeader(buf[7 := bits]);
    assert h'.magic == h.magic && h'.formatSR == h.formatSR;
  }

  /**
   * getSampleRateFromVBANSampleRateFormat: the rate of an index inside the table;
   * None (the caller's rate left as it was) outside it. The rate found names its
   * index uniquely because the table of the protocol has no repeated rate.
   */
  function SampleRateFromFormat(srFormat: nat): (rate: Option<int>)
    ensures rate.Some? <==> srFormat < VBAN_SR_MAXNUMBER
    ensures rate.Some? ==> rate.value == VBanSRList[srFormat]
    ensures rate.Some? ==> forall j :: 0 <= j < VBAN_SR_MAXNUMBER && VBanSRList[j] == rate.value ==> j == srFormat
  {
    if srFormat < VBAN_SR_MAXNUMBER then Some(VBanSRList[srFormat]) else None
  }

  /** The stream name of a received buffer, read as a C string from offset 8. */
  function StreamNameOf(buf: seq<byte>): (name: seq<byte>)
    requires |buf| >= VBAN_HEADER_SIZE
    ensures 8 + |name| <= |buf| && name == buf[8..8 + |name|]
    ensures forall k :: 0 <= k < |name| ==> name[k] != 0
    ensures 8 + |name| < |buf| ==> buf[8 + |name|] == 0
  {
    CName(buf[8..])
  }

  /** Everything parsePacket tests before it decodes. */
  predicate Accepts(buf: seq<byte>, pcmView: seq<byte>, stream: seq<byte>)
    requires |buf| >= VBAN_HEADER_SIZE && |pcmView| >= 8
    ensures Accepts(buf, pcmView, stream) <==>
      && AudioPcmHeader(DecodeHeader(buf)) && pcmView[4] % 0x20 < VBAN_SR_MAXNUMBER
      && StreamNameOf(buf) == stream
  {
    && CheckPacket(buf, pcmView, VBAN_HEADER_SIZE)
    && SampleRateFromFormat(SrIndex(DecodeHeader(buf))).Some?
    && StreamNameOf(buf) == stream
  }

  /**
   * With the rate lookup after it, the as-written check accepts exactly the
   * packets the corrected one accepts, less those arriving while byte 4 of the
   * vector object holds no table index.
   */
  lemma AcceptsAsWritten(buf: seq<byte>, pcmView: seq<byte>, stream: seq<byte>)
    requires |buf| >= VBAN_HEADER_SIZE && |pcmView| >= 8
    ensures Accepts(buf, pcmView, stream) <==> Accepts(buf, buf, stream) && pcmView[4] % 0x20 < VBAN_SR_MAXNUMBER
  {
  }

  /** The rate lookup in parsePacket never fails on a header the corrected check accepted. */
  lemma AcceptedRateAlwaysFound(buf: seq<byte>, len: int)
    requires |buf| >= VBAN_HEADER_SIZE && CheckPacketCorrected(buf, len)
    ensures SampleRateFromFormat(SrIndex(DecodeHeader(buf))).Some?
  {
  }

  // ---------------------------------------------------------------------------
  // De-interleaving
  // ---------------------------------------------------------------------------

  /** Bytes per sample that the header's resolution names. */
  function SampleSizeOf(buf: seq<byte>): (size: nat)
    requires |buf| >= VBAN_HEADER_SIZE
    ensures size <= 8
    ensures size == 0 <==> BitResolution(DecodeHeader(buf)) >= 6
    ensures BitResolution(DecodeHeader(buf)) == VBAN_BITFMT_16_INT ==> size == 2
  {
    VBanBitResolutionSize[BitResolution(DecodeHeader(buf))]
  }

  lemma DivCancel(a: nat, k: nat)
    requires k > 0
    ensures a * k / k == a
  {
    var q, r := a * k / k, a * k % k;
    assert a * k == q * k + r;
    MulDistrib(a, 0, k);
    if q < a {
      MulDistrib(q, a - q, k);
    } else if q > a {
      MulDistrib(a, q - a, k);
    }
  }

  /**
   * float_buffer_size: the payload size divided back by the sample size and the
   * channel count. With a non-zero sample size it is the samples-per-channel count.
   */
  function FloatBufferSize(nbSamples: nat, nbChannels: nat, sampleSize: nat): (n: nat)
    requires sampleSize > 0 && nbChannels > 0
    ensures n == nbSamples
  {
    var payloadSize := nbSamples * nbChannels * sampleSize;
    DivCancel(nbSamples * nbChannels, sampleSize);
    DivCancel(nbSamples, nbChannels);
    payloadSize / sampleSize / nbChannels
  }

  /** Sample i of channel c, read at byte offset 28 + 2 * (i * channels + c). */
  function SampleAt(buf: seq<byte>, nbSamples: nat, nbChannels: nat, i: nat, c: nat): (v: int16)
    requires i < nbSamples && c < nbChannels
    requires VBAN_HEADER_SIZE + 2 * (nbSamples * nbChannels) <= |buf|
    ensures var pos := VBAN_HEADER_SIZE + SampleOffset(i, c, nbChannels);
      && pos + 1 < |buf|
      && buf[pos + 1] as int * 256 + buf[pos] as int == if v < 0 then v + 0x1_0000 else v
  {
    MulStep(i, nbSamples, c, nbChannels);
    var pos := VBAN_HEADER_SIZE + SampleOffset(i, c, nbChannels);
    Int16FromBytes(buf[pos], buf[pos + 1])
  }

  /** The payload the header announces lies inside the buffer. */
  predicate PayloadFits(buf: seq<byte>)
    requires |buf| >= VBAN_HEADER_SIZE
  {
    var h := DecodeHeader(buf);
    VBAN_HEADER_SIZE + 2 * (SamplesPerChannel(h) * ChannelCount(h)) <= |buf|
  }

  /**
   * What parsePacket tests, and the two things it does not: that the resolution
   * has a non-zero sample size (it divides by it) and that the payload the header
   * announces lies inside the buffer (it reads it unchecked).
   */
  predicate Decodable(buf: seq<byte>, pcmView: seq<byte>, stream: seq<byte>)
    requires |buf| >= VBAN_HEADER_SIZE && |pcmView| >= 8
  {
    Accepts(buf, pcmView, stream) && SampleSizeOf(buf) > 0 && PayloadFits(buf)
  }

  /** One buffer per announced channel, each holding that channel's samples in frame order. */
  predicate Deinterleaved(buffers: seq<seq<int16>>, buf: seq<byte>)
    requires |buf| >= VBAN_HEADER_SIZE && PayloadFits(buf)
  {
    var h := DecodeHeader(buf);
    && |buffers| == ChannelCount(h)
    && (forall c :: 0 <= c < |buffers| ==> |buffers[c]| == SamplesPerChannel(h))
    && (forall c, i :: 0 <= c < |buffers| && 0 <= i < SamplesPerChannel(h) ==>
          buffers[c][i] == SampleAt(buf, SamplesPerChannel(h), ChannelCount(h), i, c))
  }

  /**
   * A header at 48 kHz whose resolution bits say 6 passes every test of
   * parsePacket and names a sample size of 0, the divisor of float_buffer_size.
   */
  lemma ZeroSizeResolutionAccepted()
    ensures var buf := MAGIC + [0x03, 0, 0, 0x06] + Zeros(20);
      Accepts(buf, buf, []) && SampleSizeOf(buf) == 0
  {
    var buf := MAGIC + [0x03, 0, 0, 0x06] + Zeros(20);
    assert DecodeHeader(buf).formatSR == 0x03 && DecodeHeader(buf).formatBit == 6;
    assert DecodeHeader(buf).magic == MAGIC;
    CNameEndsAt(buf[8..], 0);
  }

  /**
   * A header announcing 256 samples of 256 channels passes every test, and its
   * payload of 131072 bytes runs past the end of the receive buffer.
   */
  lemma OversizedPayloadAccepted()
    ensures var buf := MAGIC + [0x03, 0xFF, 0xFF, VBAN_BITFMT_16_INT] + Zeros(RECV_BUF_SIZE - 8);
      && |buf| == RECV_BUF_SIZE
      && Accepts(buf, buf, []) && SampleSizeOf(buf) == 2
      && !PayloadFits(buf)
  {
    var buf := MAGIC + [0x03, 0xFF, 0xFF, VBAN_BITFMT_16_INT] + Zeros(RECV_BUF_SIZE - 8);
    assert DecodeHeader(buf).formatSR == 0x03 && DecodeHeader(buf).formatBit == 1;
    assert DecodeHeader(buf).formatNbs == 0xFF && DecodeHeader(buf).formatNbc == 0xFF;
    assert DecodeHeader(buf).magic == MAGIC;
    CNameEndsAt(buf[8..], 0);
  }

  /**
   * The two nested loops of parsePacket: nbChannels buffers of nbSamples samples,
   * sample i of channel c read from the interleaved payload after the header.
   */
  method Deinterleave(buf: seq<byte>, nbSamples: nat, nbChannels: nat) returns (buffers: seq<seq<int16>>)
    requires VBAN_HEADER_SIZE + 2 * (nbSamples * nbChannels) <= |buf|
    ensures |buffers| == nbChannels
    ensures forall c :: 0 <= c < nbChannels ==> |buffers[c]| == nbSamples
    ensures forall c, i :: 0 <= c < nbChannels && 0 <= i < nbSamples ==>
      buffers[c][i] == SampleAt(buf, nbSamples, nbChannels, i, c)
  {
    buffers := seq(nbChannels, _ => seq(nbSamples, _ => 0));
    var i := 0;
    while i < nbSamples
      invariant 0 <= i <= nbSamples
      invariant |buffers| == nbChannels
      invariant forall c :: 0 <= c < nbChannels ==> |buffers[c]| == nbSamples
      invariant forall c, j :: 0 <= c < nbChannels && 0 <= j < i ==>
        buffers[c][j] == SampleAt(buf, nbSamples, nbChannels, j, c)
    {
      var c := 0;
      while c < nbChannels
        invariant 0 <= c <= nbChannels
        invariant |buffers| == nbChannels
        invariant forall c' :: 0 <= c' < nbChannels ==> |buffers[c']| == nbSamples
        invariant forall c', j :: 0 <= c' < nbChannels && 0 <= j < i ==>
          buffers[c'][j] == SampleAt(buf, nbSamples, nbChannels, j, c')
        invariant forall c' :: 0 <= c' < c ==>
          buffers[c'][i] == SampleAt(buf, nbSamples, nbChannels, i, c')
      {
        MulStep(i, nbSamples, c, nbChannels);
        var pos := (i * nbChannels * 2) + (c * 2) + VBAN_HEADER_SIZE;
        var value := Int16FromBytes(buf[pos], buf[pos + 1]);
        buffers := buffers[c := buffers[c][i := value]];
        c := c + 1;
      }
      i := i + 1;
    }
  }

  /**
   * parsePacket: nothing for a packet that fails validation, the rate lookup or
   * the stream-name filter; otherwise format_nbc + 1 buffers of format_nbs + 1
   * samples, sample i of channel c read from the interleaved payload. A packet
   * whose sample size is 0 or whose payload runs past the buffer gives nothing
   * here, where the source divides by zero or reads past the buffer.
   */
  method ParsePacket(buf: seq<byte>, pcmView: seq<byte>, stream: seq<byte>) returns (buffers: seq<seq<int16>>)
    requires |buf| >= VBAN_HEADER_SIZE && |pcmView| >= 8
    ensures !Decodable(buf, pcmView, stream) ==> buffers == []
    ensures Decodable(buf, pcmView, stream) ==> Deinterleaved(buffers, buf)
  {
    buffers := [];
    if !CheckPacket(buf, pcmView, VBAN_HEADER_SIZE) {
      return;
    }
    var hdr := DecodeHeader(buf);
    var sampleRate := SampleRateFromFormat(SrIndex(hdr));
    if sampleRate.None? {
      return;
    }
    if StreamNameOf(buf) != stream {
      return;
    }
    var nbSamples := SamplesPerChannel(hdr);
    var nbChannels := ChannelCount(hdr);
    var sampleSize := SampleSizeOf(buf);
    if sampleSize == 0 || !PayloadFits(buf) {
      return;
    }
    var floatBufferSize := FloatBufferSize(nbSamples, nbChannels, sampleSize);
    buffers := Deinterleave(buf, floatBufferSize, nbChannels);
  }

  // ---------------------------------------------------------------------------
  // The receive buffer
  // ---------------------------------------------------------------------------

  /** The receive buffer's size once the socket is started (recv_buf_size). */
  const RECV_BUF_SIZE: nat := 30 * VBAN_DATA_MAX_SIZE

  /** std::vector::resize: the first n bytes, with zero bytes added past the old end. */
  function Resize(s: seq<byte>, n: nat): (r: seq<byte>)
    ensures |r| == n
    ensures forall k :: 0 <= k < n ==> r[k] == if k < |s| then s[k] else 0
  {
    if n <= |s| then s[..n] else s + Zeros(n - |s|)
  }

  /**
   * What one receive call leaves in the buffer: the datagram's first bytes, at
   * most limit of them (the rest of a longer datagram is discarded), over the
   * buffer's earlier contents.
   */
  function Received(buffer: seq<byte>, datagram: seq<byte>, limit: nat): (r: seq<byte>)
    requires limit <= |buffer|
    ensures |r| == |buffer|
    ensures |datagram| <= limit ==> r == datagram + buffer[|datagram|..]
    ensures |datagram| > limit ==> r == datagram[..limit] + buffer[limit..]
  {
    var n := if |datagram| <= limit then |datagram| else limit;
    datagram[..n] + buffer[n..]
  }

  /**
   * A datagram longer than the limit loses its bytes from the limit on: where
   * they were, the buffer shows what it held before, never the datagram.
   */
  lemma ReceivedDropsTail(buffer: seq<byte>, datagram: seq<byte>, limit: nat, k: nat)
    requires limit <= k < |buffer| && k < |datagram|
    ensures Received(buffer, datagram, limit)[k] == buffer[k]
  {
  }

  // ---------------------------------------------------------------------------
  // The receiving object
  // ---------------------------------------------------------------------------

  /** The receiver's state that the core reads and writes. */
  class Receiver {
    var mSampleRateFormat: int
    var mSampleRateFixed: bool
    var mPacketWritePos: int
    var mFrameCounter: int
    var mIsRecieving: bool
    var mStream: seq<byte>
    /** The descriptor socket() returned; -1 before the first start. */
    var mSockfd: int
    /** The receive buffer; empty until the socket is started. */
    var mRecvBuffer: seq<byte>

    /**
     * While listening the buffer has its full size. Receive calls write at most
     * VBAN_DATA_MAX_SIZE bytes, so every byte from there on is still the zero
     * that resize put there.
     */
    ghost predicate Valid()
      reads this
    {
      && (mIsRecieving ==> |mRecvBuffer| == RECV_BUF_SIZE)
      && forall k :: VBAN_DATA_MAX_SIZE <= k < |mRecvBuffer| ==> mRecvBuffer[k] == 0
    }

    /** The field defaults; the stream name is the one the host configures. */
    constructor (stream: seq<byte>)
      ensures Valid()
      ensures mSampleRateFormat == 0 && !mSampleRateFixed
      ensures mPacketWritePos == VBAN_HEADER_SIZE && mFrameCounter == 0
      ensures !mIsRecieving && mStream == stream && mSockfd == -1 && mRecvBuffer == []
    {
      mSockfd := -1;
      mSampleRateFormat := 0;
      mSampleRateFixed := false;
      mPacketWritePos := VBAN_HEADER_SIZE;
      mFrameCounter := 0;
      mIsRecieving := false;
      mStream := stream;
      mRecvBuffer := [];
    }

    /**
     * startSock (its non-socket part): the descriptor socket() returned is kept,
     * the receive buffer is resized to recv_buf_size, the first table entry equal
     * to the host rate fixes the sample-rate index, and the receiver is then
     * listening.
     */
    method StartSock(hostRate: int, sockfd: int)
      requires Valid()
      modifies this
      ensures Valid()
      ensures mIsRecieving && mSockfd == sockfd
      ensures mRecvBuffer == Resize(old(mRecvBuffer), RECV_BUF_SIZE)
      ensures hostRate in VBanSRList ==>
        && mSampleRateFixed
        && 0 <= mSampleRateFormat < VBAN_SR_MAXNUMBER && VBanSRList[mSampleRateFormat] == hostRate
        && forall j :: 0 <= j < mSampleRateFormat ==> VBanSRList[j] != hostRate
      ensures hostRate !in VBanSRList ==>
        mSampleRateFormat == old(mSampleRateFormat) && mSampleRateFixed == old(mSampleRateFixed)
      ensures mPacketWritePos == old(mPacketWritePos) && mFrameCounter == old(mFrameCounter)
      ensures mStream == old(mStream)
    {
      mSockfd := sockfd;
      mRecvBuffer := Resize(mRecvBuffer, RECV_BUF_SIZE);
      var found, index := FirstRateIndex(hostRate);
      if found {
        mSampleRateFormat := index;
        mSampleRateFixed := true;
      }
      mIsRecieving := true;
    }

    /** stopSock (its non-socket part): the receiver stops listening. */
    method StopSock()
      requires Valid()
      modifies this
      ensures Valid()
      ensures !mIsRecieving && mSockfd == old(mSockfd) && mRecvBuffer == old(mRecvBuffer)
      ensures mSampleRateFormat == old(mSampleRateFormat) && mSampleRateFixed == old(mSampleRateFixed)
      ensures mPacketWritePos == old(mPacketWritePos) && mFrameCounter == old(mFrameCounter)
      ensures mStream == old(mStream)
    {
      mIsRecieving := false;
    }

    /**
     * dspsetup: resets the frame counter and write position; while the rate is not
     * fixed, scans the whole table and keeps the last entry equal to the host rate.
     */
    method DspSetup(hostRate: int)
      requires Valid()
      modifies this
      ensures Valid()
      ensures mFrameCounter == 0 && mPacketWritePos == VBAN_HEADER_SIZE
      ensures old(mSampleRateFixed) ==>
        mSampleRateFixed && mSampleRateFormat == old(mSampleRateFormat)
      ensures !old(mSampleRateFixed) && hostRate in VBanSRList ==>
        && mSampleRateFixed
        && 0 <= mSampleRateFormat < VBAN_SR_MAXNUMBER && VBanSRList[mSampleRateFormat] == hostRate
        && forall j :: mSampleRateFormat < j < VBAN_SR_MAXNUMBER ==> VBanSRList[j] != hostRate
      ensures !old(mSampleRateFixed) && hostRate !in VBanSRList ==>
        !mSampleRateFixed && mSampleRateFormat == old(mSampleRateFormat)
      ensures mIsRecieving == old(mIsRecieving) && mStream == old(mStream) && mSockfd == old(mSockfd)
      ensures mRecvBuffer == old(mRecvBuffer)
    {
      mFrameCounter := 0;
      if !mSampleRateFixed {
        var found, index := LastRateIndex(hostRate, mSampleRateFormat);
        if found {
          mSampleRateFormat := index;
          mSampleRateFixed := true;
        }
      }
      mPacketWritePos := VBAN_HEADER_SIZE;
    }

    /**
     * The audio callback with recvPacket: nothing unless listening on a socket
     * whose descriptor is not 0. The receive call then writes at most
     * VBAN_DATA_MAX_SIZE bytes of the datagram into the receive buffer, or fails
     * (recvFailed) and writes nothing. When it returned more than zero bytes the
     * whole buffer is parsed against the configured stream name; vectorObject is
     * the memory of the buffer's vector object, which checkPacket hands on.
     */
    method Process(datagram: seq<byte>, recvFailed: bool, vectorObject: seq<byte>) returns (buffers: seq<seq<int16>>)
      requires Valid() && |vectorObject| >= 8
      modifies this
      ensures Valid()
      ensures mIsRecieving == old(mIsRecieving) && mSockfd == old(mSockfd) && mStream == old(mStream)
      ensures mSampleRateFormat == old(mSampleRateFormat) && mSampleRateFixed == old(mSampleRateFixed)
      ensures mPacketWritePos == old(mPacketWritePos) && mFrameCounter == old(mFrameCounter)
      ensures mIsRecieving && mSockfd != 0 && !recvFailed ==>
        mRecvBuffer == Received(old(mRecvBuffer), datagram, VBAN_DATA_MAX_SIZE)
      ensures !(mIsRecieving && mSockfd != 0 && !recvFailed) ==> mRecvBuffer == old(mRecvBuffer)
      ensures !mIsRecieving || mSockfd == 0 || recvFailed || datagram == [] ==> buffers == []
      ensures mIsRecieving && mSockfd != 0 && !recvFailed && datagram != [] ==>
        && (!Decodable(mRecvBuffer, vectorObject, mStream) ==> buffers == [])
        && (Decodable(mRecvBuffer, vectorObject, mStream) ==> Deinterleaved(buffers, mRecvBuffer))
    {
      buffers := [];
      if !mIsRecieving {
        return;
      }
      if mSockfd == 0 {
        return;
      }
      var l := -1;
      if !recvFailed {
        mRecvBuffer := Received(mRecvBuffer, datagram, VBAN_DATA_MAX_SIZE);
        l := if |datagram| <= VBAN_DATA_MAX_SIZE then |datagram| else VBAN_DATA_MAX_SIZE;
      }
      if l > 0 {
        buffers := ParsePacket(mRecvBuffer, vectorObject, mStream);
      }
    }
  }
}

# VBAN send and receive objects, modelled in Dafny

This project models the codec core of two Max/MSP externals that carry audio
over UDP in VB-Audio's VBAN protocol:

- **The sender (`4ds.vbansend~`).** `start()` sizes a packet for the channel count. It picks the sample-rate index, then stamps the 28-byte header into the packet buffer. The audio callback `operator()` writes each block of input frames into the buffer after the header: 16-bit samples, low byte first, channels interleaved. When the buffer is full, `sendPacket()` stamps the frame counter into the header and hands the packet to the socket.
- **The receiver (`4ds.vbanreceive~`).** `checkPacket`/`checkPcmPacket` validate a received header. `getSampleRateFromVBANSampleRateFormat` looks up the rate, and the stream name is compared with the configured one. `parsePacket` then de-interleaves the payload into one buffer per channel. `startSock`/`dspsetup` search the rate table for the host's sample rate.

Modules:

- `VbanHeader` (`vban_header.dfy`): the protocol constants, the header as a datatype with an encoder and decoder over bytes, the little-endian 32-bit frame counter, the two rate-table searches, and the C-string handling of the stream-name field (`strncpy`, reading a NUL-terminated name).
- `VbanSamples` (`vban_samples.dfy`): a 16-bit sample as two bytes, and frames as interleaved bytes.
- `VbanReceive` (`vban_receive.dfy`): the validation chain, `parsePacket`, and a `Receiver` class holding the receiver's fields.
- `VbanSend` (`vban_send.dfy`): the packet sizing, and a `VbanSender` class with the packet buffer as an `array<byte>`. A ghost log `sent` records every packet handed to the socket. The ghost `pending` holds the frames written since the last send. The invariant `Valid()` ties `pending` to the bytes between the header and the cursor. The contracts of `SendPacket` and `Process` tie the last entry of `sent` to the buffer's filled prefix.
- `VbanLoopback` (`vban_loopback.dfy`): the two sides together. A full packet from the sender decodes to the samples that went in, provided two things hold. First, the receive call delivers it whole. Second, the header check reads the packet's own header. The source's receive limit of 1436 bytes meets the first condition only for the channel counts whose full packets fit in 1436 bytes, e.g. 1, 2, 16 and 24 channels. It cuts off the end of the packet for the others, e.g. 3 to 15 channels; see Findings.

The socket itself is outside the model:

- The validity of the destination address is a parameter of `Start`.
- The descriptor `socket()` returns is a parameter of `StartSock`.
- `sendto` is the append to `sent`.
- The datagram `recv` reads from, and whether the call fails, are parameters of `Receiver.Process`. So are the bytes of the receive buffer's `std::vector` object, which the header check reads; see Findings.
- The host's sample rate is a parameter wherever the source reads `samplerate()`.

## Model

| member | source | states |
|---|---|---|
| VbanHeader.U32Le | 4ds.vbansend_tilde/4ds.vbansend_tilde.cpp:111 | every 32-bit counter is stored as four bytes that read back unchanged as a little-endian value (byte k weighted 256^k) |
| VbanHeader.U32FromLe | 4ds.vbanreceive_tilde/4ds.vbanreceive_tilde.cpp:242 | four bytes read as nuFrame give a value below 2^32, with byte k weighted 256^k |
| VbanHeader.U32ToFromLe | 4ds.vbanreceive_tilde/4ds.vbanreceive_tilde.cpp:242 | every four bytes read as a counter and stored again are the same four bytes |
| VbanHeader.EncodeHeader | 4ds.vbansend_tilde/4ds.vbansend_tilde.cpp:65-72 | the header is 28 bytes: magic at 0-3, format_SR, format_nbs, format_nbc and format_bit at 4-7, stream name at 8-23, nuFrame at 24-27 |
| VbanHeader.DecodeHeader | 4ds.vbanreceive_tilde/4ds.vbanreceive_tilde.cpp:242 | reading the header at the start of any buffer of at least 28 bytes gives a well-formed header |
| VbanHeader.DecodeEncodeHeader | 4ds.vbanreceive_tilde/4ds.vbanreceive_tilde.cpp:242 | a header decoded from the bytes the sender stamped has every field it was stamped with, whatever follows it |
| VbanHeader.EncodeDecodeHeader | 4ds.vbanreceive_tilde/4ds.vbanreceive_tilde.cpp:242 | encoding a decoded header gives back the 28 bytes it was read from |
| VbanHeader.EncodeHeaderNuFrame | 4ds.vbansend_tilde/4ds.vbansend_tilde.cpp:111 | stamping a new frame counter changes the last four header bytes and no other |
| VbanHeader.MaskedFields | 4ds.vbanreceive_tilde/4ds.vbanreceive_tilde.cpp:318-319 | and-ing a byte with 0x1F, 0xE0, 0x07 or 0xF0 is the remainder or the rounded-down value the model uses for the rate index, sub-protocol, resolution and codec |
| VbanHeader.FirstRateIndex | 4ds.vbanreceive_tilde/4ds.vbanreceive_tilde.cpp:150-157 | the search with `break` finds an index exactly when the host rate is in the table, and that index is the first entry equal to it |
| VbanHeader.LastRateIndex | 4ds.vbansend_tilde/4ds.vbansend_tilde.cpp:60-62 | the search without `break` finds an index exactly when the rate is in the table; it is the last entry equal to it; with no match the old index stays |
| VbanHeader.CName | 4ds.vbanreceive_tilde/4ds.vbanreceive_tilde.cpp:245 | the C string of a byte sequence is a prefix of it with no NUL, followed by a NUL or by the end |
| VbanHeader.CNameEndsAt | 4ds.vbanreceive_tilde/4ds.vbanreceive_tilde.cpp:245 | a NUL at position k with no NUL before it ends the C string at k |
| VbanHeader.CNameAgree | 4ds.vbanreceive_tilde/4ds.vbanreceive_tilde.cpp:245 | two byte sequences that agree up to and including a NUL hold the same C string |
| VbanHeader.StrNCpy | 4ds.vbansend_tilde/4ds.vbansend_tilde.cpp:70 | `strncpy(dest, src, n)` writes exactly n bytes: the C string of src cut to n bytes, then NUL padding |
| VbanHeader.StrNCpyReadsBack | 4ds.vbansend_tilde/4ds.vbansend_tilde.cpp:70 | a name written by `strncpy` into the first 15 bytes of the field, with its 16th byte NUL, reads back as the name's C string cut to 15 bytes |
| VbanSamples.LowByte | 4ds.vbansend_tilde/4ds.vbansend_tilde.cpp:141 | `(char)value` is a byte that differs from the sample by a multiple of 256: its low eight bits |
| VbanSamples.HighByte | 4ds.vbansend_tilde/4ds.vbansend_tilde.cpp:142 | `(char)(value >> 8)` is the byte that, above the low byte, makes up the sample's 16-bit two's-complement pattern |
| VbanSamples.Int16FromBytes | 4ds.vbanreceive_tilde/4ds.vbanreceive_tilde.cpp:265 | `(short)hi << 8 \| (0xff & lo)` is the 16-bit value whose two's-complement pattern is hi above lo |
| VbanSamples.SampleRoundTrip | 4ds.vbanreceive_tilde/4ds.vbanreceive_tilde.cpp:262-265 | every 16-bit value split into `(char)value` and `(char)(value >> 8)` is rebuilt unchanged by `(short)hi << 8 \| (0xff & lo)` |
| VbanSamples.BytesRoundTrip | 4ds.vbansend_tilde/4ds.vbansend_tilde.cpp:141-142 | every pair of bytes is what the sender writes for the value the receiver rebuilds from it |
| VbanSamples.SignedByte | 4ds.vbanreceive_tilde/4ds.vbanreceive_tilde.cpp:265 | a char read as a signed value lies in [-128, 128) |
| VbanSamples.FrameBytes | 4ds.vbansend_tilde/4ds.vbansend_tilde.cpp:135-147 | one frame takes two bytes per channel |
| VbanSamples.FramesBytesLength | 4ds.vbansend_tilde/4ds.vbansend_tilde.cpp:133-148 | frames of C channels take 2 × frames × C bytes |
| VbanSamples.FrameBytesPrefix | 4ds.vbansend_tilde/4ds.vbansend_tilde.cpp:135-147 | one more sample of a frame appends exactly that sample's two bytes |
| VbanSamples.FramesBytesPrefix | 4ds.vbansend_tilde/4ds.vbansend_tilde.cpp:133-148 | one more frame of a prefix appends exactly that frame's bytes |
| VbanSamples.FramesBytesConcat | 4ds.vbansend_tilde/4ds.vbansend_tilde.cpp:127-151 | frames written over two callbacks give the same bytes as all of them written at once |
| VbanSamples.FrameBytesAt | 4ds.vbansend_tilde/4ds.vbansend_tilde.cpp:143-144 | sample c of a frame sits at bytes 2c (low) and 2c+1 (high) |
| VbanSamples.FramesBytesAt | 4ds.vbanreceive_tilde/4ds.vbanreceive_tilde.cpp:262 | sample i of channel c sits at byte offset 2 × (i × C + c), low byte first, which is the offset the receiver reads |
| VbanReceive.CheckPcmPacket | 4ds.vbanreceive_tilde/4ds.vbanreceive_tilde.cpp:340-358 | checkPcmPacket accepts exactly when byte 4 of the memory it is handed, masked to its rate index, is below 21; the resolution test can never fail |
| VbanReceive.CheckPacket | 4ds.vbanreceive_tilde/4ds.vbanreceive_tilde.cpp:290-338 | checkPacket as written accepts exactly when len is at most 28, the packet's magic is "VBAN", its sub-protocol is audio and its codec is PCM, and byte 4 of the vector object (not of the packet) holds a rate index below 21 |
| VbanReceive.CheckPacketCorrected | 4ds.vbanreceive_tilde/4ds.vbanreceive_tilde.cpp:290-338 | checkPacket reading the packet's own header accepts exactly when len is at most 28, the magic is "VBAN", the sub-protocol is audio, the codec is PCM and the packet's rate index is below 21 |
| VbanReceive.CheckPacketReadsVectorObject | 4ds.vbanreceive_tilde/4ds.vbanreceive_tilde.cpp:334 | a header with rate index 31 passes the as-written check and fails the corrected one; a valid 48 kHz header fails the as-written check when the object's byte 4 is 0x1F |
| VbanReceive.ResolutionOnlyReported | 4ds.vbanreceive_tilde/4ds.vbanreceive_tilde.cpp:306-308 | changing the resolution bits never changes either check's verdict: a non-16-bit format is only reported |
| VbanReceive.StreamNameOf | 4ds.vbanreceive_tilde/4ds.vbanreceive_tilde.cpp:245 | the stream name read from a packet is the bytes from offset 8 up to the first NUL, or to the end of the buffer, with no NUL in it |
| VbanReceive.Accepts | 4ds.vbanreceive_tilde/4ds.vbanreceive_tilde.cpp:240-246 | parsePacket's tests pass exactly when the magic is "VBAN", the packet is audio and PCM, the packet's rate index and the vector object's byte 4 are both below 21, and the stream name matches |
| VbanReceive.SampleSizeOf | 4ds.vbanreceive_tilde/4ds.vbanreceive_tilde.cpp:249-250 | the sample size is at most 8 bytes; it is 0 exactly for resolution bits 6 and 7, and 2 for 16-bit samples |
| VbanReceive.SampleAt | 4ds.vbanreceive_tilde/4ds.vbanreceive_tilde.cpp:262-265 | sample i of channel c is read from the two bytes at offset 28 + 2(i·C + c), which lie in the buffer, high byte above low byte in two's complement |
| VbanReceive.SampleRateFromFormat | 4ds.vbanreceive_tilde/4ds.vbanreceive_tilde.cpp:280-288 | a rate is found exactly for an index below 21 and it is that table entry; with the protocol's table, no other index has that rate |
| VbanReceive.AcceptsAsWritten | 4ds.vbanreceive_tilde/4ds.vbanreceive_tilde.cpp:240-246 | parsePacket's tests as written pass exactly when they pass on the packet's own header and the object's byte 4 holds a rate index below 21 |
| VbanReceive.AcceptedRateAlwaysFound | 4ds.vbanreceive_tilde/4ds.vbanreceive_tilde.cpp:243-244 | for a header the corrected check accepted, the rate lookup in parsePacket always succeeds |
| VbanReceive.FloatBufferSize | 4ds.vbanreceive_tilde/4ds.vbanreceive_tilde.cpp:251-254 | with a non-zero sample size, the payload size divided by the sample size and the channel count is the samples-per-channel count again |
| VbanReceive.ZeroSizeResolutionAccepted | 4ds.vbanreceive_tilde/4ds.vbanreceive_tilde.cpp:247-254 | a 48 kHz header with resolution bits 6 passes every test of parsePacket and has sample size 0, the divisor of float_buffer_size |
| VbanReceive.OversizedPayloadAccepted | 4ds.vbanreceive_tilde/4ds.vbanreceive_tilde.cpp:247-265 | a header announcing 256 samples of 256 channels passes every test, and its payload does not fit in the 43080-byte receive buffer |
| VbanReceive.Deinterleave | 4ds.vbanreceive_tilde/4ds.vbanreceive_tilde.cpp:255-269 | one buffer per channel, each of nbSamples samples; sample i of channel c is rebuilt from payload bytes 2(i·C+c) and 2(i·C+c)+1 |
| VbanReceive.ParsePacket | 4ds.vbanreceive_tilde/4ds.vbanreceive_tilde.cpp:239-278 | no buffers for a packet that fails validation, the rate lookup or the stream-name filter, or whose sample size is 0 or whose payload is not in the buffer; otherwise format_nbc+1 buffers of format_nbs+1 samples, sample i of channel c rebuilt from its two payload bytes |
| VbanReceive.Resize | 4ds.vbanreceive_tilde/4ds.vbanreceive_tilde.cpp:148 | `vector::resize` keeps the common prefix and zero-fills any growth |
| VbanReceive.Received | 4ds.vbanreceive_tilde/4ds.vbanreceive_tilde.cpp:361 | `recv` writes a datagram's first bytes, at most limit of them, over the start of the buffer; the buffer's length and the rest of its bytes stay |
| VbanReceive.ReceivedDropsTail | 4ds.vbanreceive_tilde/4ds.vbanreceive_tilde.cpp:361 | a byte of a datagram at or past the limit never reaches the buffer; the buffer keeps its earlier byte there |
| VbanReceive.Receiver.constructor | 4ds.vbanreceive_tilde/4ds.vbanreceive_tilde.cpp:25-44 | the field defaults: rate index 0 and not fixed, write position 28, frame counter 0, not receiving, descriptor -1, empty receive buffer; `mStream` is the configured stream name rather than the source's default `""`, since the `stream` message that sets it is not modelled |
| VbanReceive.Receiver.StartSock | 4ds.vbanreceive_tilde/4ds.vbanreceive_tilde.cpp:132-162 | the descriptor is kept; the receive buffer is resized to 30 × 1436 bytes; when the host rate is in the table, the rate is fixed at its first index, otherwise the rate fields are unchanged; the receiver is listening; `Valid()` is kept |
| VbanReceive.Receiver.StopSock | 4ds.vbanreceive_tilde/4ds.vbanreceive_tilde.cpp:164-169 | the receiver stops listening; nothing else changes |
| VbanReceive.Receiver.DspSetup | 4ds.vbanreceive_tilde/4ds.vbanreceive_tilde.cpp:179-199 | the frame counter and write position are reset; a fixed rate stays; an unfixed one becomes the last table index equal to the host rate, or stays unfixed |
| VbanReceive.Receiver.Process | 4ds.vbanreceive_tilde/4ds.vbanreceive_tilde.cpp:360-384 | nothing unless listening on a descriptor other than 0; then the receive call writes at most 1436 bytes of the datagram into the buffer, and when it got more than 0 bytes, the whole buffer is parsed as parsePacket does; bytes from 1436 on stay zero (`Valid()`) |
| VbanSend.PacketChannelSize | 4ds.vbansend_tilde/4ds.vbansend_tilde.cpp:40-44 | the per-channel packet size is an even number of bytes between 0 and 512 |
| VbanSend.PacketChannelSizeFits | 4ds.vbansend_tilde/4ds.vbansend_tilde.cpp:40-47 | the per-channel size is even and at most 512; the whole payload fits the 1436-byte data size; it is 512 whenever 512 per channel fits |
| VbanSend.PacketChannelSizeMaximal | 4ds.vbansend_tilde/4ds.vbansend_tilde.cpp:43-44 | no larger even per-channel size of at most 512 would fit the data size |
| VbanSend.StampedHeader | 4ds.vbansend_tilde/4ds.vbansend_tilde.cpp:65-72 | the header start() stamps is well formed: format_nbc and format_nbs keep the low 8 bits of count − 1, and nuFrame is modulo 2^32 |
| VbanSend.Packet | 4ds.vbansend_tilde/4ds.vbansend_tilde.cpp:109-124 | the bytes sendPacket hands to the socket are the stamped header with the given counter, then the frames' bytes |
| VbanSend.ThreeChannelPacketPassesDataMax | 4ds.vbansend_tilde/4ds.vbansend_tilde.cpp:112 | with three channels, the write cursor at send time is past VBAN_DATA_MAX_SIZE (see Findings) |
| VbanSend.BlockFrames | 4ds.vbansend_tilde/4ds.vbansend_tilde.cpp:133-137 | frame i of a block holds sample i of each channel, in channel order |
| VbanSend.Resized | 4ds.vbansend_tilde/4ds.vbansend_tilde.cpp:53 | `vector::resize` on the packet array, the same operation as VbanReceive.Resize: the common prefix is kept and any growth is zero-filled |
| VbanSend.WriteBytes | 4ds.vbansend_tilde/4ds.vbansend_tilde.cpp:65-72 | the bytes land at the given offset and nothing else changes |
| VbanSend.StoreHeaderFields | 4ds.vbansend_tilde/4ds.vbansend_tilde.cpp:65-72 | the stores of start() leave the 28 header bytes as magic, the four format bytes, the 15 name bytes, an untouched NUL at byte 23 and the counter; the payload is untouched |
| VbanSend.StampFrameCounter | 4ds.vbansend_tilde/4ds.vbansend_tilde.cpp:111 | the counter lands in bytes 24-27 and nothing else changes |
| VbanSend.RestampedPacket | 4ds.vbansend_tilde/4ds.vbansend_tilde.cpp:111-115 | after the restamp, the packet prefix handed to sendto is the header stamped with the current counter, followed by the same frames |
| VbanSend.SpliceAppend | 4ds.vbansend_tilde/4ds.vbansend_tilde.cpp:143-146 | two consecutive writes at the cursor leave their concatenation and the rest of the buffer as it was |
| VbanSend.WriteSample | 4ds.vbansend_tilde/4ds.vbansend_tilde.cpp:141-146 | one sample is stored at the cursor as its low then high byte; nothing else changes |
| VbanSend.WriteFrame | 4ds.vbansend_tilde/4ds.vbansend_tilde.cpp:135-147 | the channel loop stores the frame's bytes at the cursor, advances it by 2 per channel, and changes nothing else |
| VbanSend.WriteBlock | 4ds.vbansend_tilde/4ds.vbansend_tilde.cpp:133-148 | the frame loop stores the bytes of all frames of the block from the cursor on, advances it by 2 × frames × channels, and changes nothing else |
| VbanSend.AppendedFrames | 4ds.vbansend_tilde/4ds.vbansend_tilde.cpp:133-148 | frames appended after the filled part leave the header alone; the filled part is then the old frames followed by the new ones |
| VbanSend.VbanSender.constructor | 4ds.vbansend_tilde/4ds.vbansend_tilde.cpp:4-12 | a stopped sender with the configured channel count and stream name, an empty buffer and nothing sent |
| VbanSend.VbanSender.StampHeader | 4ds.vbansend_tilde/4ds.vbansend_tilde.cpp:64-72 | the first 28 buffer bytes become the encoded header for the current fields; the payload is untouched |
| VbanSend.VbanSender.SizePacket | 4ds.vbansend_tilde/4ds.vbansend_tilde.cpp:39-57 | the sizes follow from the channel count; the buffer is resized to the packet size; the counter is 0 and the cursor is right after the header |
| VbanSend.VbanSender.PreparePacket | 4ds.vbansend_tilde/4ds.vbansend_tilde.cpp:39-72 | the sizing, then the rate index (the last table entry equal to the host rate, else unchanged), then the header stamped with frame counter 0 |
| VbanSend.VbanSender.Start | 4ds.vbansend_tilde/4ds.vbansend_tilde.cpp:21-85 | no change when running or when the address is invalid; otherwise a fresh sized buffer, the rate index, the header stamped for the unclamped channel count, the channel count clamped to 254, and the sender running; `Valid()` holds |
| VbanSend.VbanSender.Stop | 4ds.vbansend_tilde/4ds.vbansend_tilde.cpp:88-96 | the sender stops and nothing else changes |
| VbanSend.VbanSender.SetupDsp | 4ds.vbansend_tilde/4ds.vbansend_tilde.cpp:99-106 | a stopped sender, or one whose address has become invalid, ends stopped with everything else unchanged; a running one is restarted like Start: a fresh buffer sized for its current channel count, the rate index, the stream name kept, the channel size and packet size, counter 0, cursor after the header, the header stamped with counter 0 |
| VbanSend.VbanSender.SendPacket | 4ds.vbansend_tilde/4ds.vbansend_tilde.cpp:109-124 | the packet logged as sent is the buffer's filled prefix: the header stamped with the current counter followed by the pending frames; then the cursor is reset, the counter is incremented, and the payload was within the data size |
| VbanSend.VbanSender.Accumulate | 4ds.vbansend_tilde/4ds.vbansend_tilde.cpp:133-148 | the block's frames are written at the cursor and added to the pending frames; the cursor moves past them; `Valid()` is kept |
| VbanSend.VbanSender.Process | 4ds.vbansend_tilde/4ds.vbansend_tilde.cpp:127-151 | stopped: nothing changes; running: the block is written at the cursor, and when the cursor reaches the packet size, exactly one packet is sent, the whole buffer: the stamped header with all frames since the last send |
| VbanLoopback.PacketChannelSizeAtLeastOneSample | 4ds.vbansend_tilde/4ds.vbansend_tilde.cpp:43-44 | for 1 to 254 channels, a packet carries at least one sample per channel |
| VbanLoopback.FullPacketFrameCount | 4ds.vbansend_tilde/4ds.vbansend_tilde.cpp:149-150 | a packet sent when its payload fills the channel size × channels carries channel size ÷ 2 frames |
| VbanLoopback.FullPacketPayload | 4ds.vbansend_tilde/4ds.vbansend_tilde.cpp:39-47 | channel size ÷ 2 frames of C channels fill exactly the payload start() sized |
| VbanLoopback.SentHeaderReadsBack | 4ds.vbanreceive_tilde/4ds.vbanreceive_tilde.cpp:242-250 | the receiver reads the sender's channel count, the samples per channel of a full packet, the rate index, audio/PCM/16-bit, the magic, the counter modulo 2^32, and a NUL at the end of the name field |
| VbanLoopback.SentStreamName | 4ds.vbanreceive_tilde/4ds.vbanreceive_tilde.cpp:245 | the stream name the receiver reads is the sender's name cut to 15 bytes |
| VbanLoopback.SentPacketAccepted | 4ds.vbanreceive_tilde/4ds.vbanreceive_tilde.cpp:240-254 | a full sent packet passes parsePacket's tests with the corrected check, and with the as-written one exactly when the object's byte 4 holds a rate index below 21; its sample size is 2 and its payload is present |
| VbanLoopback.SentSamplesReadBack | 4ds.vbanreceive_tilde/4ds.vbanreceive_tilde.cpp:260-267 | every sample of a full sent packet is rebuilt by the receiver at its frame and channel |
| VbanLoopback.ReceiveSent | 4ds.vbanreceive_tilde/4ds.vbanreceive_tilde.cpp:239-278 | parsePacket with the corrected check (the packet's own header as the view) returns, for a full sent packet, one buffer per sent channel; buffer c holds, in frame order, exactly the samples sent on channel c |
| VbanLoopback.SendThenDecode | 4ds.vbansend_tilde/4ds.vbansend_tilde.cpp:127-151 | a running sender's callback either sends nothing and keeps the block pending, or sends the whole buffer, which parsePacket with the corrected check (the packet's own header as the view) decodes to every frame pending before and the block's frames, channel by channel |
| VbanLoopback.HeaderPrefixDecides | 4ds.vbanreceive_tilde/4ds.vbanreceive_tilde.cpp:240-247 | two buffers with the same 28 header bytes, whose name field ends in a NUL, give the same header, stream name and test results |
| VbanLoopback.TruncatedHeaderDecides | 4ds.vbanreceive_tilde/4ds.vbanreceive_tilde.cpp:361-366 | a packet longer than 1436 bytes that passes the tests leaves, after a limited receive, a buffer that passes them with the same header, and holds the old bytes from 1436 on |
| VbanLoopback.ThreeChannelPacket | 4ds.vbansend_tilde/4ds.vbansend_tilde.cpp:39-47 | a full 3-channel packet has 239 frames and 1462 bytes and passes the corrected tests |
| VbanLoopback.ThreeChannelPacketLosesTail | 4ds.vbanreceive_tilde/4ds.vbanreceive_tilde.cpp:361 | after the receive call, a full 3-channel packet still passes every test, but its last sample of channel 3 is read as 0 from the buffer's zero fill, whatever was sent (see Findings) |
| VbanLoopback.ProtocolSizedReceiveKeepsPacket | 4ds.vbanreceive_tilde/4ds.vbanreceive_tilde.cpp:361 | received with the protocol's 1464-byte maximum as the limit, a full packet of any channel count from 1 to 254 passes the tests and every sample reads back |
| VbanLoopback.DataSizedReceiveKeepsShortPacket | 4ds.vbanreceive_tilde/4ds.vbanreceive_tilde.cpp:361-366 | a full packet of at most 1436 bytes arrives whole at the as-written limit; it passes the as-written tests exactly when the object's byte 4 holds a rate index below 21, and every sample reads back |
| VbanLoopback.ReceiveFromSender | 4ds.vbanreceive_tilde/4ds.vbanreceive_tilde.cpp:360-384 | a listening receiver handed a full packet of at most 1436 bytes decodes exactly the frames that were sent, one buffer per channel, when the object's byte 4 holds a rate index below 21, and nothing otherwise |

## Left out

- Sockets and the host: `socket`, `setsockopt`, `bind`, `inet_pton`, `sendto`, `recv` and `close` are replaced by the parameters and the ghost log described above. Also left out are the console and error logging, `logPacketCount` (a file append), the inlet/outlet setup, the `stream`/`channels`/`host` messages and the receiver's `mConnected` counter.
- Float conversion: samples are taken as already-quantised 16-bit values. The sender's `static_cast<short>(sample * 32768.0f)` and the receiver's division by 32768 are floating point. `convertToDoublePointer` only copies the buffers into freshly allocated arrays, and its result is unused.
- `4ds.vbansend_tilde.h` declares an encoder-based sender (`VBANStreamEncoder`, asio socket, `startSocket`/`stopSocket`) that the `.cpp` does not implement. The model follows the `.cpp`.
- VbanSend.VbanSender.constructor: the source shows no declaration or initial value for the sender's channel count, stream name, rate index, sizes, counter, cursor, running flag or buffer. The model takes the channel count and stream name as parameters and sets the rest as follows: `mSampleRateFormat` 0, the sizes 0, the counter 0, the cursor 28, not running, and an empty buffer.
- `vban.h` is not part of this model. The constants are the values of VB-Audio's reference header: 28, 16, 1436, 1464, 256, 21, the rate table and the resolution sizes {1, 2, 3, 4, 4, 8, 0, 0}.
- VbanReceive.SampleRateFromFormat: its third clause, that no other index has the same rate, holds for the reference rate table, which has no repeated entry. The table in `vban.h` is not visible here.
- The bit masks (`& 0x1F`, `& 0xE0`, `& 0x07`, `& 0xF0`) are written as the equivalent `%` arithmetic on a byte; `MaskedFields` proves the two agree.
- VbanReceive.ParsePacket: its `len` parameter is unused in the source and is dropped.
- VbanReceive.ParsePacket: returns nothing for a packet whose sample size is 0 or whose payload is not in the buffer. The source divides by zero in the first case and reads past the buffer in the second; see Findings.
- VbanReceive.Receiver.Process: the bytes of the receive buffer's `std::vector` object, which checkPacket hands to checkPcmPacket, are a parameter. The object's layout and the heap address in it are not modelled.
- VbanSend.VbanSender.Process: requires that the block fits in what is left of the packet. The source writes without checking and can run past the end of the buffer. VbanSend.VbanSender.Accumulate carries the same requirement.
- VbanSend.VbanSender.Process: requires the input bundle to have at least `mChannelCount` channels of `frameCount` samples. The object creates 8 inlets (`4ds.vbansend_tilde.cpp:6-10`), and `operator()` reads `input.samples(channel)` for every channel below `mChannelCount` (`4ds.vbansend_tilde.cpp:135-137`) without checking. With 9 to 254 channels, what the source then reads depends on the host and is not modelled. The same requirement applies to VbanSend.VbanSender.Accumulate.
- VbanSend.VbanSender.SendPacket: the `assert` at line 112 is not modelled as a check. As written it fails for 42 of the channel counts from 1 to 254, e.g. 3 to 15 (see Findings). The contract states the corrected bound instead.
- VbanSend.PacketChannelSize returns an `int`. It is not negative, as `PacketChannelSizeFits` proves.

## Findings

| source | as written | input that shows it | evidently intended | confidence | as-written member | corrected member |
|---|---|---|---|---|---|---|
| 4ds.vbansend_tilde/4ds.vbansend_tilde.cpp:112 | `assert(mPacketWritePos <= VBAN_DATA_MAX_SIZE)` compares the write cursor, which counts the 28 header bytes, with the payload-only maximum of 1436 | three channels: 478 bytes per channel, 1434 payload bytes, so the cursor is 1462 when the packet is sent and the assertion fails | the payload (cursor minus header) is at most VBAN_DATA_MAX_SIZE, i.e. the packet is at most 1464 bytes | high for the arithmetic; not executed | VbanSend.ThreeChannelPacketPassesDataMax | VbanSend.VbanSender.SendPacket |
| 4ds.vbanreceive_tilde/4ds.vbanreceive_tilde.cpp:334 | `checkPcmPacket(hdrBuffer, len)` passes the `std::vector` object, not `hdrBuffer->data()`, so the rate and resolution tests read bytes 4 and 7 of the vector object | a valid 48 kHz header (rate index 3) is rejected when the object's byte 4 is 0x1F; a header with rate index 31 passes when that byte is 0 | the tests read the packet's own header, as the other tests of checkPacket do | high; which packets are dropped depends on the heap address; not executed | VbanReceive.CheckPacketReadsVectorObject | VbanReceive.CheckPacketCorrected |
| 4ds.vbanreceive_tilde/4ds.vbanreceive_tilde.cpp:247-254 | `float_buffer_size` divides by `sample_size`, which is 0 for resolution bits 6 and 7, and nothing before it rejects those | format_SR 0x03, format_bit 0x06, magic "VBAN", empty stream name | such packets are rejected or have a non-zero sample size | high; not executed | VbanReceive.ZeroSizeResolutionAccepted | VbanReceive.ParsePacket |
| 4ds.vbanreceive_tilde/4ds.vbanreceive_tilde.cpp:255-265 | the payload is read at offsets the header announces, without comparing them with the buffer size | format_nbs and format_nbc 255, 16-bit: 131072 payload bytes are read from a 43080-byte buffer | the announced payload is checked against the bytes received | high; not executed | VbanReceive.OversizedPayloadAccepted | VbanReceive.ParsePacket |
| 4ds.vbanreceive_tilde/4ds.vbanreceive_tilde.cpp:361 | `recv` reads at most VBAN_DATA_MAX_SIZE (1436) bytes, the payload maximum, while a packet can be 1464 bytes | the sender's full 3-channel packet is 1462 bytes; its last 26 bytes are cut, and the parser reads the zero fill of the resize at line 148 for them | the limit is the packet maximum, VBAN_PROTOCOL_MAX_SIZE | high; not executed | VbanLoopback.ThreeChannelPacketLosesTail | VbanLoopback.ProtocolSizedReceiveKeepsPacket |

/**
 * The 28-byte VBAN packet header, the protocol constants it is built from,
 * the 21-entry sample-rate table, and the C-string handling of the 16-byte
 * stream-name field.
 *
 * The constants follow VB-Audio's VBAN protocol specification (the values of
 * its reference header vban.h). The header is an explicit serialize/deserialize
 * pair over byte sequences instead of a pointer cast over a buffer.
 */
module VbanHeader {

  type byte = x: int | 0 <= x < 256

  // ---------------------------------------------------------------------------
  // Protocol constants
  // ---------------------------------------------------------------------------

  const VBAN_HEADER_SIZE: nat := 28
  const VBAN_STREAM_NAME_SIZE: nat := 16
  const VBAN_PROTOCOL_MAX_SIZE: nat := 1464
  const VBAN_DATA_MAX_SIZE: nat := VBAN_PROTOCOL_MAX_SIZE - VBAN_HEADER_SIZE
  const VBAN_SAMPLES_MAX_NB: nat := 256
  const VBAN_SR_MAXNUMBER: nat := 21

  const VBAN_PROTOCOL_AUDIO: byte := 0x00
  const VBAN_BITFMT_16_INT: byte := 0x01
  const VBAN_BIT_RESOLUTION_MAX: nat := 8
  const VBAN_CODEC_PCM: byte := 0x00

  /** Bytes per sample for each bit resolution; the two last formats have no entry (0). */
  const VBanBitResolutionSize: seq<nat> := [1, 2, 3, 4, 4, 8, 0, 0]

  /** The sample rates a format_SR index denotes, in index order. */
  const VBanSRList: seq<int> :=
    [6000, 12000, 24000, 48000, 96000, 192000, 384000,
     8000, 16000, 32000, 64000, 128000, 256000, 512000,
     11025, 22050, 44100, 88200, 176400, 352800, 705600]

  /** ASCII "VBAN", compared byte for byte. */
  const MAGIC: seq<byte> := [0x56, 0x42, 0x41, 0x4E]

  /** Offset of the last byte of the stream-name field. */
  const NAME_LAST_OFFSET: nat := 23
  /** Offset of the little-endian nuFrame counter. */
  const NU_FRAME_OFFSET: nat := 24

  const U32_MODULUS: nat := 0x1_0000_0000

  // ---------------------------------------------------------------------------
  // Header layout
  // ---------------------------------------------------------------------------

  /** The fields of a VBAN header, in wire order. */
  datatype Header = Header(
    magic: seq<byte>,
    formatSR: byte,
    formatNbs: byte,
    formatNbc: byte,
    formatBit: byte,
    streamName: seq<byte>,
    nuFrame: nat)

  predicate WellFormed(h: Header) {
    |h.magic| == 4 && |h.streamName| == VBAN_STREAM_NAME_SIZE && h.nuFrame < U32_MODULUS
  }

  // The masks select bit fields of an unsigned byte: and-ing with a low-bit mask
  // (0x1F, 0x07) keeps the remainder modulo a power of two, and-ing with its
  // complement (0xE0, 0xF0) removes that remainder; MaskedFields states this
  // for every byte.
  function SrIndex(h: Header): byte { h.formatSR % 0x20 }
  function SubProtocol(h: Header): byte { h.formatSR - h.formatSR % 0x20 }
  function BitResolution(h: Header): byte { h.formatBit % 0x08 }
  function Codec(h: Header): byte { h.formatBit - h.formatBit % 0x10 }

  /** The four masks of the protocol (VBAN_SR_MASK, VBAN_PROTOCOL_MASK,
    * VBAN_BIT_RESOLUTION_MASK, VBAN_CODEC_MASK) as the arithmetic used above. */
  lemma MaskedFields(x: bv8)
    ensures x & 0x1F == x % 0x20
    ensures x & 0xE0 == x - x % 0x20
    ensures x & 0x07 == x % 0x08
    ensures x & 0xF0 == x - x % 0x10
  {
  }


  /** Number of samples per channel the header announces (format_nbs + 1). */
  function SamplesPerChannel(h: Header): nat { h.formatNbs + 1 }
  /** Number of channels the header announces (format_nbc + 1). */
  function ChannelCount(h: Header): nat { h.formatNbc + 1 }

  /** A 32-bit unsigned integer, least significant byte first; it reads back unchanged. */
  function U32Le(x: nat): (b: seq<byte>)
    requires x < U32_MODULUS
    ensures |b| == 4
    ensures U32FromLe(b) == x
  {
    [x % 256, x / 256 % 256,
     x / 256 / 256 % 256, x / 256 / 256 / 256]
  }

  function U32FromLe(b: seq<byte>): (x: nat)
    requires |b| == 4
    ensures x < U32_MODULUS
    ensures x == b[0] as int + 0x100 * b[1] as int + 0x1_0000 * b[2] as int + 0x100_0000 * b[3] as int
  {
    var hi: nat := b[2] as int + 256 * b[3] as int;
    assert hi < 0x1_0000;
    var mid: nat := b[1] as int + 256 * hi;
    assert mid < 0x100_0000;
    b[0] + 256 * mid
  }

  lemma DivMod256(x: int, q: int, r: int)
    requires x == 256 * q + r && 0 <= r < 256
    ensures x / 256 == q && x % 256 == r
  {
  }

  lemma U32ToFromLe(b: seq<byte>)
    requires |b| == 4
    ensures U32Le(U32FromLe(b)) == b
  {
    var x := U32FromLe(b);
    var q2: nat := b[2] as int + 256 * b[3] as int;
    var q1: nat := b[1] as int + 256 * q2;
    DivMod256(x, q1, b[0]);
    DivMod256(q1, q2, b[1]);
    DivMod256(q2, b[3], b[2]);
  }

  /** The header as the 28 bytes that start a packet. */
  function EncodeHeader(h: Header): (b: seq<byte>)
    requires WellFormed(h)
    ensures |b| == VBAN_HEADER_SIZE
    ensures b[..4] == h.magic && b[8..24] == h.streamName
    ensures b[4] == h.formatSR && b[5] == h.formatNbs && b[6] == h.formatNbc && b[7] == h.formatBit
    ensures b[24..28] == U32Le(h.nuFrame)
  {
    h.magic + [h.formatSR, h.formatNbs, h.formatNbc, h.formatBit] + h.streamName + U32Le(h.nuFrame)
  }

  /** Reads the header at the start of a buffer, as the source's cast to VBanHeader does. */
  function DecodeHeader(b: seq<byte>): (h: Header)
    requires |b| >= VBAN_HEADER_SIZE
    ensures WellFormed(h)
  {
    Header(b[0..4], b[4], b[5], b[6], b[7], b[8..24], U32FromLe(b[24..28]))
  }

  /** Decoding what was encoded gives back every field, whatever follows the header. */
  lemma DecodeEncodeHeader(h: Header, rest: seq<byte>)
    requires WellFormed(h)
    ensures DecodeHeader(EncodeHeader(h) + rest) == h
  {
    var b := EncodeHeader(h) + rest;
    assert b[24..28] == U32Le(h.nuFrame);
  }

  /** Restamping nuFrame changes the last four header bytes and nothing else. */
  lemma EncodeHeaderNuFrame(h: Header, n: nat)
    requires WellFormed(h) && n < U32_MODULUS
    ensures EncodeHeader(h.(nuFrame := n)) == EncodeHeader(h)[..NU_FRAME_OFFSET] + U32Le(n)
  {
  }

  /** Encoding a decoded header reproduces the 28 bytes it was read from. */
  lemma EncodeDecodeHeader(b: seq<byte>)
    requires |b| >= VBAN_HEADER_SIZE
    ensures EncodeHeader(DecodeHeader(b)) == b[..VBAN_HEADER_SIZE]
  {
    U32ToFromLe(b[24..28]);
    assert b[..VBAN_HEADER_SIZE] == b[0..4] + b[4..8] + b[8..24] + b[24..28];
  }

  // ---------------------------------------------------------------------------
  // Sample-rate table search
  // ---------------------------------------------------------------------------

  /**
   * The receiver's search at socket start: scan the table and stop at the first
   * entry equal to the host rate.
   */
  method FirstRateIndex(hostRate: int) returns (found: bool, index: nat)
    ensures found <==> hostRate in VBanSRList
    ensures found ==> index < VBAN_SR_MAXNUMBER && VBanSRList[index] == hostRate
    ensures found ==> forall j :: 0 <= j < index ==> VBanSRList[j] != hostRate
  {
    found, index := false, 0;
    var i := 0;
    while i < VBAN_SR_MAXNUMBER
      invariant 0 <= i <= VBAN_SR_MAXNUMBER
      invariant !found
      invariant forall j :: 0 <= j < i ==> VBanSRList[j] != hostRate
    {
      if hostRate == VBanSRList[i] {
        found, index := true, i;
        break;
      }
      i := i + 1;
    }
  }

  /**
   * The search without a break (sender start, receiver DSP setup): every matching
   * entry overwrites the index, so the last match wins; with no match the index
   * keeps the value it had.
   */
  method LastRateIndex(hostRate: int, current: int) returns (found: bool, index: int)
    ensures found <==> hostRate in VBanSRList
    ensures found ==> 0 <= index < VBAN_SR_MAXNUMBER && VBanSRList[index] == hostRate
    ensures found ==> forall j :: index < j < VBAN_SR_MAXNUMBER ==> VBanSRList[j] != hostRate
    ensures !found ==> index == current
  {
    found, index := false, current;
    for i := 0 to VBAN_SR_MAXNUMBER
      invariant found <==> exists j :: 0 <= j < i && VBanSRList[j] == hostRate
      invariant found ==> 0 <= index < i && VBanSRList[index] == hostRate
      invariant found ==> forall j :: index < j < i ==> VBanSRList[j] != hostRate
      invariant !found ==> index == current
    {
      if hostRate == VBanSRList[i] {
        found, index := true, i;
      }
    }
  }

  // ---------------------------------------------------------------------------
  // Stream names as C strings
  // ---------------------------------------------------------------------------

  /** The C string a byte sequence holds: every byte before the first NUL. */
  function CName(s: seq<byte>): (r: seq<byte>)
    ensures |r| <= |s| && r == s[..|r|]
    ensures forall k :: 0 <= k < |r| ==> r[k] != 0
    ensures |r| < |s| ==> s[|r|] == 0
  {
    if s == [] || s[0] == 0 then [] else [s[0]] + CName(s[1..])
  }

  /** A NUL at position k with no NUL before it ends the C string there. */
  lemma {:induction false} CNameEndsAt(s: seq<byte>, k: nat)
    requires k <= |s| && (k < |s| ==> s[k] == 0)
    requires forall j :: 0 <= j < k ==> s[j] != 0
    ensures CName(s) == s[..k]
  {
    if k > 0 {
      CNameEndsAt(s[1..], k - 1);
      assert s[..k] == [s[0]] + s[1..][..k - 1];
    }
  }

  /** Two byte sequences that agree up to a NUL hold the same C string, whatever follows. */
  lemma {:induction false} CNameAgree(s: seq<byte>, t: seq<byte>, k: nat)
    requires k < |s| && k < |t| && s[..k + 1] == t[..k + 1] && s[k] == 0
    ensures CName(s) == CName(t)
  {
    assert s[0] == t[0];
    if s[0] != 0 {
      assert s[1..][..k] == t[1..][..k];
      CNameAgree(s[1..], t[1..], k - 1);
    }
  }

  function Zeros(n: nat): (z: seq<byte>)
    ensures |z| == n && forall k :: 0 <= k < n ==> z[k] == 0
  {
    seq(n, _ => 0)
  }

  /** A C string cut to at most n bytes. */
  function Truncate(s: seq<byte>, n: nat): (r: seq<byte>)
    ensures |r| <= n && |r| <= |s| && r == s[..|r|] && (|s| <= n ==> r == s)
  {
    if |s| <= n then s else s[..n]
  }

  /**
   * strncpy(dest, src, n): the C string of src, cut to n bytes, with the rest of
   * the n bytes filled with NUL.
   */
  function StrNCpy(src: seq<byte>, n: nat): (r: seq<byte>)
    ensures |r| == n
    ensures r[..|Truncate(CName(src), n)|] == Truncate(CName(src), n)
    ensures forall k :: |Truncate(CName(src), n)| <= k < n ==> r[k] == 0
  {
    var s := Truncate(CName(src), n);
    s + Zeros(n - |s|)
  }

  /**
   * A name written by strncpy into the first 15 bytes of the stream-name field,
   * with a NUL in the last byte, reads back as the C string of the name cut to 15
   * bytes.
   */
  lemma StrNCpyReadsBack(src: seq<byte>, rest: seq<byte>)
    ensures CName(StrNCpy(src, VBAN_STREAM_NAME_SIZE - 1) + [0] + rest)
         == Truncate(CName(src), VBAN_STREAM_NAME_SIZE - 1)
  {
    var s := Truncate(CName(src), VBAN_STREAM_NAME_SIZE - 1);
    var field := StrNCpy(src, VBAN_STREAM_NAME_SIZE - 1) + [0] + rest;
    assert field[..|s|] == s;
    CNameEndsAt(field, |s|);
  }
}

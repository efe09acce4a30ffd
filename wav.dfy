/**
 * The WAV wrapper put around the raw PCM that speech synthesis returns: a
 * 44-byte canonical RIFF/WAVE header (a 16-byte `fmt ` chunk with format tag
 * 1, PCM, then the `data` chunk) followed by the samples.
 *
 * The header is written field by field into a zero-filled 44-byte buffer, as
 * Node.js Buffer writes do: a 32-bit or 16-bit little-endian write first
 * checks that the number is in range and throws a RangeError otherwise, and a
 * fractional number in range is written as its integer part. JavaScript
 * numbers are modelled as exact rationals (`real`).
 */
module Wav {
  import opened Common

  const MaxU16: int := 0xFFFF
  const MaxU32: int := 0xFFFF_FFFF
  const HeaderLength: nat := 44

  /** The RangeError of the first write whose number is out of range, by the offset it was written at. */
  datatype WavError = OutOfRange(offset: nat)

  function Ascii(s: string): (b: seq<Byte>)
    requires forall i :: 0 <= i < |s| ==> s[i] as int < 128
    ensures |b| == |s|
  {
    seq(|s|, i requires 0 <= i < |s| => s[i] as int)
  }

  const Riff: seq<Byte> := [82, 73, 70, 70]   // "RIFF"
  const Wave: seq<Byte> := [87, 65, 86, 69]   // "WAVE"
  const Fmt: seq<Byte> := [102, 109, 116, 32] // "fmt "
  const Data: seq<Byte> := [100, 97, 116, 97] // "data"

  lemma TagsAreAscii()
    ensures Riff == Ascii("RIFF") && Wave == Ascii("WAVE") && Fmt == Ascii("fmt ") && Data == Ascii("data")
  {
  }

  function LE16(v: nat): (b: seq<Byte>)
    requires v <= MaxU16
    ensures |b| == 2
  {
    [v % 256, v / 256]
  }

  function LE32(v: nat): (b: seq<Byte>)
    requires v <= MaxU32
    ensures |b| == 4
  {
    [v % 256, (v / 256) % 256, (v / 65536) % 256, v / 16777216]
  }

  function ReadLE16(b: seq<Byte>, i: nat): int
    requires i + 2 <= |b|
  {
    b[i] as int + 256 * b[i + 1] as int
  }

  function ReadLE32(b: seq<Byte>, i: nat): int
    requires i + 4 <= |b|
  {
    b[i] as int + 256 * b[i + 1] as int + 65536 * b[i + 2] as int + 16777216 * b[i + 3] as int
  }

  lemma LE16RoundTrip(v: nat)
    requires v <= MaxU16
    ensures ReadLE16(LE16(v), 0) == v
  {
  }

  lemma LE32RoundTrip(v: nat)
    requires v <= MaxU32
    ensures ReadLE32(LE32(v), 0) == v
  {
    var q1 := v / 256;
    var q2 := q1 / 256;
    assert v == v % 256 + 256 * q1;
    assert q1 == q1 % 256 + 256 * q2;
    assert q2 == q2 % 256 + 256 * (q2 / 256);
    assert v / 65536 == q2;
    assert v / 16777216 == q2 / 256;
  }

  /** The number the write stores: the integer part of an in-range number. */
  function Stored(value: real): nat
    requires value >= 0.0
  {
    value.Floor
  }

  predicate InU16(value: real)
  {
    0.0 <= value <= MaxU16 as real
  }

  predicate InU32(value: real)
  {
    0.0 <= value <= MaxU32 as real
  }

  function ByteRate(sampleRate: int, channels: int, bitDepth: int): real
  {
    sampleRate as real * channels as real * (bitDepth as real / 8.0)
  }

  function BlockAlign(channels: int, bitDepth: int): real
  {
    channels as real * (bitDepth as real / 8.0)
  }

  /** The RIFF chunk descriptor: its tag, the size of everything after this field, and the WAVE tag. */
  function RiffChunk(n: nat): (c: seq<Byte>)
    requires 36 + n <= MaxU32
    ensures |c| == 12
  {
    Riff + LE32(36 + n) + Wave
  }

  /** The `fmt ` sub-chunk: size 16, format tag 1 (PCM), channels, sample rate, byte rate, block alignment, bit depth. */
  function FmtChunk(channels: nat, sampleRate: nat, byteRate: nat, blockAlign: nat, bitDepth: nat): (c: seq<Byte>)
    requires channels <= MaxU16 && sampleRate <= MaxU32 && byteRate <= MaxU32
    requires blockAlign <= MaxU16 && bitDepth <= MaxU16
    ensures |c| == 24
  {
    Fmt + LE32(16) + LE16(1) + LE16(channels) + LE32(sampleRate) + LE32(byteRate) + LE16(blockAlign) + LE16(bitDepth)
  }

  /** The `data` sub-chunk header: its tag and the number of sample bytes. */
  function DataChunk(n: nat): (c: seq<Byte>)
    requires n <= MaxU32
    ensures |c| == 8
  {
    Data + LE32(n)
  }

  /**
   * The RangeError the `fmt ` fields raise, if any: the first of channels,
   * sample rate, byte rate, block alignment and bit depth that does not fit.
   */
  function FmtError(channels: int, sampleRate: int, byteRate: real, blockAlign: real, bitDepth: int): (e: Option<WavError>)
    ensures e.None? <==> InU16(channels as real) && InU32(sampleRate as real) && InU32(byteRate)
                         && InU16(blockAlign) && InU16(bitDepth as real)
  {
    if !InU16(channels as real) then Some(OutOfRange(22))
    else if !InU32(sampleRate as real) then Some(OutOfRange(24))
    else if !InU32(byteRate) then Some(OutOfRange(28))
    else if !InU16(blockAlign) then Some(OutOfRange(32))
    else if !InU16(bitDepth as real) then Some(OutOfRange(34))
    else None
  }

  /**
   * The reference layout: the three chunk headers, then the samples, or the
   * RangeError of the first field, in writing order, that does not fit.
   */
  function WavEncode(pcm: seq<Byte>, sampleRate: int, channels: int, bitDepth: int): Result<seq<Byte>, WavError>
  {
    var n := |pcm|;
    var byteRate := ByteRate(sampleRate, channels, bitDepth);
    var blockAlign := BlockAlign(channels, bitDepth);
    if !InU32((36 + n) as real) then Err(OutOfRange(4))
    else
      match FmtError(channels, sampleRate, byteRate, blockAlign, bitDepth)
      case Some(e) => Err(e)
      case None =>
        Ok(RiffChunk(n) + FmtChunk(channels, sampleRate, Stored(byteRate), Stored(blockAlign), bitDepth) + DataChunk(n) + pcm)
  }

  // ---------------------------------------------------------------------------
  // Reading a header back
  // ---------------------------------------------------------------------------

  datatype WavFields = WavFields(
    riffSize: int, fmtSize: int, formatTag: int, channels: int, sampleRate: int,
    byteRate: int, blockAlign: int, bitDepth: int, dataSize: int)

  /** Reads a canonical header: the four tags in place, then every little-endian field, then the samples. */
  function ParseWav(b: seq<Byte>): Option<(WavFields, seq<Byte>)>
  {
    if |b| < HeaderLength || b[0..4] != Riff || b[8..12] != Wave || b[12..16] != Fmt || b[36..40] != Data then None
    else
      Some((WavFields(ReadLE32(b, 4), ReadLE32(b, 16), ReadLE16(b, 20), ReadLE16(b, 22), ReadLE32(b, 24),
                      ReadLE32(b, 28), ReadLE16(b, 32), ReadLE16(b, 34), ReadLE32(b, 40)),
            b[HeaderLength..]))
  }

  /** A field read inside a piece of a larger buffer reads the same inside the piece. */
  lemma ReadWithin(w: seq<Byte>, j: nat, c: seq<Byte>, i: nat)
    requires j + |c| <= |w| && w[j..j + |c|] == c
    ensures i + 2 <= |c| ==> ReadLE16(w, j + i) == ReadLE16(c, i)
    ensures i + 4 <= |c| ==> ReadLE32(w, j + i) == ReadLE32(c, i)
  {
    if i + 4 <= |c| {
      assert w[j + i + 2] == c[i + 2] && w[j + i + 3] == c[i + 3];
    }
    if i + 2 <= |c| {
      assert w[j + i] == c[i] && w[j + i + 1] == c[i + 1];
    }
  }

  lemma RiffChunkReads(n: nat)
    requires 36 + n <= MaxU32
    ensures var c := RiffChunk(n); c[0..4] == Riff && c[8..12] == Wave && ReadLE32(c, 4) == 36 + n
  {
    var c := RiffChunk(n);
    assert c[4..8] == LE32(36 + n);
    LE32RoundTrip(36 + n);
    ReadWithin(c, 4, LE32(36 + n), 0);
  }

  lemma DataChunkReads(n: nat)
    requires n <= MaxU32
    ensures var c := DataChunk(n); c[0..4] == Data && ReadLE32(c, 4) == n
  {
    var c := DataChunk(n);
    assert c[4..8] == LE32(n);
    LE32RoundTrip(n);
    ReadWithin(c, 4, LE32(n), 0);
  }

  lemma FmtChunkReads(channels: nat, sampleRate: nat, byteRate: nat, blockAlign: nat, bitDepth: nat)
    requires channels <= MaxU16 && sampleRate <= MaxU32 && byteRate <= MaxU32
    requires blockAlign <= MaxU16 && bitDepth <= MaxU16
    ensures var c := FmtChunk(channels, sampleRate, byteRate, blockAlign, bitDepth);
      && c[0..4] == Fmt && ReadLE32(c, 4) == 16 && ReadLE16(c, 8) == 1 && ReadLE16(c, 10) == channels
      && ReadLE32(c, 12) == sampleRate && ReadLE32(c, 16) == byteRate
      && ReadLE16(c, 20) == blockAlign && ReadLE16(c, 22) == bitDepth
  {
    var c := FmtChunk(channels, sampleRate, byteRate, blockAlign, bitDepth);
    var x16, one, ch, sr := LE32(16), LE16(1), LE16(channels), LE32(sampleRate);
    var br, ba, bd := LE32(byteRate), LE16(blockAlign), LE16(bitDepth);
    assert c[4] == x16[0] && c[5] == x16[1] && c[6] == x16[2] && c[7] == x16[3];
    assert c[8] == one[0] && c[9] == one[1];
    assert c[10] == ch[0] && c[11] == ch[1];
    assert c[12] == sr[0] && c[13] == sr[1] && c[14] == sr[2] && c[15] == sr[3];
    assert c[16] == br[0] && c[17] == br[1] && c[18] == br[2] && c[19] == br[3];
    assert c[20] == ba[0] && c[21] == ba[1];
    assert c[22] == bd[0] && c[23] == bd[1];
    LE32RoundTrip(16);
    LE32RoundTrip(sampleRate);
    LE32RoundTrip(byteRate);
    LE16RoundTrip(channels);
    LE16RoundTrip(blockAlign);
    LE16RoundTrip(bitDepth);
  }

  /**
   * Whatever pcmToWav produces is 44 + n bytes long, carries the samples
   * unchanged after the header, and reads back as a canonical header whose
   * fields are the ones written: 36 + n, 16, 1, the channels, the sample
   * rate, the byte rate, the block alignment, the bit depth and n.
   */
  lemma EncodeParses(pcm: seq<Byte>, sampleRate: int, channels: int, bitDepth: int)
    requires WavEncode(pcm, sampleRate, channels, bitDepth).Ok?
    ensures var w := WavEncode(pcm, sampleRate, channels, bitDepth).value;
      && |w| == HeaderLength + |pcm| && w[HeaderLength..] == pcm
      && ParseWav(w) == Some((WavFields(36 + |pcm|, 16, 1, channels, sampleRate,
                                        Stored(ByteRate(sampleRate, channels, bitDepth)),
                                        Stored(BlockAlign(channels, bitDepth)), bitDepth, |pcm|), pcm))
  {
    var n := |pcm|;
    var br := Stored(ByteRate(sampleRate, channels, bitDepth));
    var ba := Stored(BlockAlign(channels, bitDepth));
    var w := WavEncode(pcm, sampleRate, channels, bitDepth).value;
    var riff, fmt, data := RiffChunk(n), FmtChunk(channels, sampleRate, br, ba, bitDepth), DataChunk(n);
    assert w == riff + fmt + data + pcm;
    assert w[0..12] == riff;
    assert w[12..36] == fmt;
    assert w[36..44] == data;
    assert w[HeaderLength..] == pcm;
    RiffChunkReads(n);
    FmtChunkReads(channels, sampleRate, br, ba, bitDepth);
    DataChunkReads(n);
    assert w[0..4] == riff[0..4] && w[8..12] == riff[8..12];
    assert w[12..16] == fmt[0..4] && w[36..40] == data[0..4];
    ReadWithin(w, 0, riff, 4);
    ReadWithin(w, 12, fmt, 4);
    ReadWithin(w, 12, fmt, 8);
    ReadWithin(w, 12, fmt, 10);
    ReadWithin(w, 12, fmt, 12);
    ReadWithin(w, 12, fmt, 16);
    ReadWithin(w, 12, fmt, 20);
    ReadWithin(w, 12, fmt, 22);
    ReadWithin(w, 36, data, 4);
  }

  /**
   * The speech-synthesis call (24 kHz, mono, 16-bit) always fits unless the
   * samples exceed 4 GiB, and then writes a byte rate of 48000 and a block
   * alignment of 2.
   */
  lemma SpeechHeader(pcm: seq<Byte>)
    requires 36 + |pcm| <= MaxU32
    ensures WavEncode(pcm, 24000, 1, 16).Ok?
    ensures Stored(ByteRate(24000, 1, 16)) == 48000 && Stored(BlockAlign(1, 16)) == 2
  {
    assert ByteRate(24000, 1, 16) == 48000.0;
    assert BlockAlign(1, 16) == 2.0;
  }

  /** Too many samples: the first write, the RIFF size at offset 4, throws. */
  lemma OversizedPayloadRejected(pcm: seq<Byte>, sampleRate: int, channels: int, bitDepth: int)
    requires 36 + |pcm| > MaxU32
    ensures WavEncode(pcm, sampleRate, channels, bitDepth) == Err(OutOfRange(4))
  {
  }

  // ---------------------------------------------------------------------------
  // The writer
  // ---------------------------------------------------------------------------

  /** `s` with `bytes` written over it at `offset`. */
  function Splice(s: seq<Byte>, offset: nat, bytes: seq<Byte>): (r: seq<Byte>)
    requires offset + |bytes| <= |s|
    ensures |r| == |s|
  {
    s[..offset] + bytes + s[offset + |bytes|..]
  }

  /** Writing two pieces side by side is writing their concatenation. */
  lemma SpliceAdjacent(s: seq<Byte>, offset: nat, x: seq<Byte>, y: seq<Byte>)
    requires offset + |x| + |y| <= |s|
    ensures Splice(Splice(s, offset, x), offset + |x|, y) == Splice(s, offset, x + y)
  {
    var l := Splice(Splice(s, offset, x), offset + |x|, y);
    var r := Splice(s, offset, x + y);
    assert forall k :: 0 <= k < |s| ==> l[k] == r[k];
  }

  lemma SpliceWhole(s: seq<Byte>, x: seq<Byte>)
    requires |x| == |s|
    ensures Splice(s, 0, x) == x
  {
    assert s[|x|..] == [];
  }

  /** Copies `bytes` into the buffer at `offset`. */
  method WriteBytes(a: array<Byte>, offset: nat, bytes: seq<Byte>)
    requires offset + |bytes| <= a.Length
    modifies a
    ensures a[..] == Splice(old(a[..]), offset, bytes)
  {
    var i := 0;
    while i < |bytes|
      invariant 0 <= i <= |bytes|
      invariant forall k :: 0 <= k < a.Length ==> a[k] == (if offset <= k < offset + i then bytes[k - offset] else old(a[k]))
    {
      a[offset + i] := bytes[i];
      i := i + 1;
    }
    assert forall k :: 0 <= k < a.Length ==> a[k] == Splice(old(a[..]), offset, bytes)[k];
  }

  /** Buffer.writeUInt32LE: a RangeError outside 0..2^32-1, else the integer part's four bytes, low first. */
  method WriteUInt32LE(a: array<Byte>, value: real, offset: nat) returns (ok: bool)
    requires offset + 4 <= a.Length
    modifies a
    ensures ok == InU32(value)
    ensures ok ==> a[..] == Splice(old(a[..]), offset, LE32(Stored(value)))
    ensures !ok ==> a[..] == old(a[..])
  {
    if !InU32(value) {
      return false;
    }
    WriteBytes(a, offset, LE32(Stored(value)));
    ok := true;
  }

  /** Buffer.writeUInt16LE: a RangeError outside 0..65535, else the integer part's two bytes, low first. */
  method WriteUInt16LE(a: array<Byte>, value: real, offset: nat) returns (ok: bool)
    requires offset + 2 <= a.Length
    modifies a
    ensures ok == InU16(value)
    ensures ok ==> a[..] == Splice(old(a[..]), offset, LE16(Stored(value)))
    ensures !ok ==> a[..] == old(a[..])
  {
    if !InU16(value) {
      return false;
    }
    WriteBytes(a, offset, LE16(Stored(value)));
    ok := true;
  }

  /** Bytes 0..11: "RIFF", the RIFF size, "WAVE"; the size write is the one that can throw. */
  method WriteRiffChunk(a: array<Byte>, n: nat) returns (ok: bool)
    requires a.Length == HeaderLength
    modifies a
    ensures ok == InU32((36 + n) as real)
    ensures ok ==> a[..] == Splice(old(a[..]), 0, RiffChunk(n))
  {
    ghost var s := a[..];
    WriteBytes(a, 0, Riff);
    ok := WriteUInt32LE(a, (36 + n) as real, 4);
    if !ok {
      return;
    }
    SpliceAdjacent(s, 0, Riff, LE32(36 + n));
    WriteBytes(a, 8, Wave);
    SpliceAdjacent(s, 0, Riff + LE32(36 + n), Wave);
  }

  /** The five caller-supplied fields of the `fmt ` sub-chunk, as they are stored. */
  function FmtFields(channels: nat, sampleRate: nat, byteRate: nat, blockAlign: nat, bitDepth: nat): (f: seq<Byte>)
    requires channels <= MaxU16 && sampleRate <= MaxU32 && byteRate <= MaxU32
    requires blockAlign <= MaxU16 && bitDepth <= MaxU16
    ensures Fmt + LE32(16) + LE16(1) + f == FmtChunk(channels, sampleRate, byteRate, blockAlign, bitDepth)
  {
    LE16(channels) + LE32(sampleRate) + LE32(byteRate) + LE16(blockAlign) + LE16(bitDepth)
  }

  /** Bytes 22..35, written field by field; the first field out of range throws. */
  method WriteFmtFields(a: array<Byte>, channels: int, sampleRate: int, byteRate: real, blockAlign: real, bitDepth: int)
    returns (err: Option<WavError>)
    requires a.Length == HeaderLength
    modifies a
    ensures err == FmtError(channels, sampleRate, byteRate, blockAlign, bitDepth)
    ensures err.None? ==> a[..] == Splice(old(a[..]), 22, FmtFields(channels, sampleRate, Stored(byteRate), Stored(blockAlign), bitDepth))
  {
    ghost var s := a[..];
    var ok := WriteUInt16LE(a, channels as real, 22);
    if !ok {
      return Some(OutOfRange(22));
    }
    ghost var p := LE16(channels);
    ok := WriteUInt32LE(a, sampleRate as real, 24);
    if !ok {
      return Some(OutOfRange(24));
    }
    SpliceAdjacent(s, 22, p, LE32(sampleRate));
    p := p + LE32(sampleRate);
    ok := WriteUInt32LE(a, byteRate, 28);
    if !ok {
      return Some(OutOfRange(28));
    }
    SpliceAdjacent(s, 22, p, LE32(Stored(byteRate)));
    p := p + LE32(Stored(byteRate));
    ok := WriteUInt16LE(a, blockAlign, 32);
    if !ok {
      return Some(OutOfRange(32));
    }
    SpliceAdjacent(s, 22, p, LE16(Stored(blockAlign)));
    p := p + LE16(Stored(blockAlign));
    ok := WriteUInt16LE(a, bitDepth as real, 34);
    if !ok {
      return Some(OutOfRange(34));
    }
    SpliceAdjacent(s, 22, p, LE16(bitDepth));
    err := None;
  }

  /** Bytes 12..35, the `fmt ` sub-chunk: the tag, the size 16 and the PCM format 1, then the fields. */
  method WriteFmtChunk(a: array<Byte>, channels: int, sampleRate: int, byteRate: real, blockAlign: real, bitDepth: int)
    returns (err: Option<WavError>)
    requires a.Length == HeaderLength
    modifies a
    ensures err == FmtError(channels, sampleRate, byteRate, blockAlign, bitDepth)
    ensures err.None? ==> a[..] == Splice(old(a[..]), 12, FmtChunk(channels, sampleRate, Stored(byteRate), Stored(blockAlign), bitDepth))
  {
    ghost var s := a[..];
    WriteBytes(a, 12, Fmt);
    var ok := WriteUInt32LE(a, 16.0, 16);
    SpliceAdjacent(s, 12, Fmt, LE32(16));
    ok := WriteUInt16LE(a, 1.0, 20);
    SpliceAdjacent(s, 12, Fmt + LE32(16), LE16(1));
    ghost var prefix := Fmt + LE32(16) + LE16(1);
    err := WriteFmtFields(a, channels, sampleRate, byteRate, blockAlign, bitDepth);
    if err.None? {
      SpliceAdjacent(s, 12, prefix, FmtFields(channels, sampleRate, Stored(byteRate), Stored(blockAlign), bitDepth));
    }
  }

  /** Bytes 36..43: "data" and the sample count, which fits whenever the RIFF size did. */
  method WriteDataChunk(a: array<Byte>, n: nat)
    requires a.Length == HeaderLength && n <= MaxU32
    modifies a
    ensures a[..] == Splice(old(a[..]), 36, DataChunk(n))
  {
    ghost var s := a[..];
    WriteBytes(a, 36, Data);
    var ok := WriteUInt32LE(a, n as real, 40);
    SpliceAdjacent(s, 36, Data, LE32(n));
  }

  /** pcmToWav: the header written into a fresh zero-filled 44-byte buffer, then the samples appended. */
  method PcmToWav(pcmData: seq<Byte>, sampleRate: int, channels: int, bitDepth: int)
    returns (r: Result<seq<Byte>, WavError>)
    ensures r == WavEncode(pcmData, sampleRate, channels, bitDepth)
  {
    var dataLength := |pcmData|;
    var header := new Byte[HeaderLength](_ => 0);
    var byteRate := sampleRate as real * channels as real * (bitDepth as real / 8.0);
    var blockAlign := channels as real * (bitDepth as real / 8.0);
    ghost var zeros := header[..];
    var ok := WriteRiffChunk(header, dataLength);
    if !ok {
      return Err(OutOfRange(4));
    }
    var err := WriteFmtChunk(header, channels, sampleRate, byteRate, blockAlign, bitDepth);
    if err.Some? {
      return Err(err.value);
    }
    WriteDataChunk(header, dataLength);
    ghost var riff := RiffChunk(dataLength);
    ghost var fmt := FmtChunk(channels, sampleRate, Stored(byteRate), Stored(blockAlign), bitDepth);
    SpliceAdjacent(zeros, 0, riff, fmt);
    SpliceAdjacent(zeros, 0, riff + fmt, DataChunk(dataLength));
    SpliceWhole(zeros, riff + fmt + DataChunk(dataLength));
    r := Ok(header[..] + pcmData);
  }
}

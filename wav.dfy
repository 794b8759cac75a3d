/**
 * The canonical 44-byte RIFF/WAVE header that MainActivity.writeWavHeader
 * fills in before the raw PCM samples: a "RIFF" chunk of form "WAVE" whose
 * "fmt " sub-chunk describes linear PCM (format tag 1), followed by the
 * "data" sub-chunk header. Java's 32-bit `int` arithmetic and its `(byte)`
 * truncation are written out explicitly; a byte is kept as its unsigned bit
 * pattern 0..255 (Java's `byte` is signed, but the bits written are the same).
 */
module Wav {
  import opened Wrappers

  /** A byte as written to the file, as its unsigned bit pattern. */
  type byte = b: int | 0 <= b < 256

  /** Java's 32-bit two's complement `int`. */
  type int32 = x: int | -0x8000_0000 <= x < 0x8000_0000

  const TWO_32: int := 0x1_0000_0000

  const HEADER_SIZE: nat := 44

  /** Java `a + b` on `int`s. */
  function AddInt(a: int32, b: int32): int32
  {
    Wrap(a + b)
  }

  /** Java `a * b` on `int`s. */
  function MulInt(a: int32, b: int32): int32
  {
    Wrap(a * b)
  }

  /** Java `int` arithmetic: the exact result, wrapped to 32 bits. */
  function Wrap(x: int): (r: int32)
    ensures (r - x) % TWO_32 == 0
    ensures -0x8000_0000 <= x < 0x8000_0000 ==> r == x
  {
    (x + 0x8000_0000) % TWO_32 - 0x8000_0000
  }

  /**
   * Java's `x & 0xff` and `(byte) x`: the low eight bits of `x`. Together
   * with Java's arithmetic `>>`, which is floor division by a power of two
   * (what Dafny's `/` is for a positive divisor), `(byte) ((v >> 8k) & 0xff)`
   * is `Low8(v / 256^k)` for every `int` v, negative ones included.
   */
  function Low8(x: int): byte
  {
    x % 256
  }

  /** The bytes of `"RIFF".getBytes()` and the like; the tags are plain ASCII. */
  function AsciiBytes(s: string): (r: seq<byte>)
    requires forall i :: 0 <= i < |s| ==> s[i] as int < 128
    ensures |r| == |s|
    ensures forall i :: 0 <= i < |s| ==> r[i] == s[i] as int
  {
    if s == [] then [] else [s[0] as int] + AsciiBytes(s[1..])
  }

  const RIFF: seq<byte> := [0x52, 0x49, 0x46, 0x46]
  const WAVE: seq<byte> := [0x57, 0x41, 0x56, 0x45]
  const FMT: seq<byte> := [0x66, 0x6d, 0x74, 0x20]
  const DATA: seq<byte> := [0x64, 0x61, 0x74, 0x61]

  /** The four tags are the ASCII bytes of "RIFF", "WAVE", "fmt " and "data". */
  lemma TagsAreAscii()
    ensures RIFF == AsciiBytes("RIFF") && WAVE == AsciiBytes("WAVE")
    ensures FMT == AsciiBytes("fmt ") && DATA == AsciiBytes("data")
  {
  }

  function Pow256(n: nat): (r: nat)
    ensures r > 0
  {
    if n == 0 then 1 else 256 * Pow256(n - 1)
  }

  /** The low `n` bytes of `v`'s two's complement form, least significant first. */
  function LittleEndian(v: int, n: nat): (r: seq<byte>)
    ensures |r| == n
    decreases n
  {
    if n == 0 then [] else [Low8(v)] + LittleEndian(v / 256, n - 1)
  }

  /** Reads `s` as an unsigned little-endian number, as a RIFF reader does. */
  function FromLittleEndian(s: seq<byte>): (r: nat)
    ensures r < Pow256(|s|)
  {
    if s == [] then 0 else s[0] + 256 * FromLittleEndian(s[1..])
  }

  /** Reads four bytes as a little-endian Java `int` (two's complement). */
  function FromLittleEndian32(s: seq<byte>): int32
    requires |s| == 4
  {
    var u := FromLittleEndian(s);
    assert Pow256(4) == TWO_32;
    if u < 0x8000_0000 then u else u - TWO_32
  }

  /** The RIFF chunk header with the form type: "RIFF", the chunk size, "WAVE". */
  function RiffHeader(totalLength: int32): (h: seq<byte>)
    ensures |h| == 12
  {
    RIFF + LittleEndian(totalLength, 4) + WAVE
  }

  /**
   * The "fmt " sub-chunk for 16-bit linear PCM. The channel count and the
   * block align are 16-bit fields of which `writeWavHeader` writes only the low
   * byte, leaving the high byte zero.
   */
  function FmtChunk(sampleRate: int32, channels: int32): (h: seq<byte>)
    ensures |h| == 24
  {
    var byteRate := MulInt(MulInt(sampleRate, channels), 2);
    FMT + [16, 0, 0, 0]                                // sub-chunk size 16
    + [1, 0]                                           // format tag WAVE_FORMAT_PCM
    + [Low8(channels), 0]                              // channel count
    + LittleEndian(sampleRate, 4)
    + LittleEndian(byteRate, 4)
    + [Low8(MulInt(channels, 2)), 0]                   // block align
    + [16, 0]                                          // bits per sample
  }

  /** The "data" sub-chunk header: the tag and the number of PCM bytes that follow. */
  function DataHeader(pcmLength: int32): (h: seq<byte>)
    ensures |h| == 8
  {
    DATA + LittleEndian(pcmLength, 4)
  }

  /** The header `writeWavHeader(out, pcmLength, sampleRate, channels)` writes. */
  function WavHeader(pcmLength: int32, sampleRate: int32, channels: int32): (h: seq<byte>)
    ensures |h| == HEADER_SIZE
  {
    RiffHeader(AddInt(pcmLength, 36)) + FmtChunk(sampleRate, channels) + DataHeader(pcmLength)
  }

  //----------------------------------------------------------------------
  // writeWavHeader, as the Java code runs it: index assignments into a
  // zero-filled 44-byte array, which is then written to the output stream.
  // The stream is modelled by the bytes written to it so far.
  //----------------------------------------------------------------------

  /** `s` with the bytes from position `at` on replaced by `src`. */
  function Splice(s: seq<byte>, at: nat, src: seq<byte>): (r: seq<byte>)
    requires at + |src| <= |s|
    ensures |r| == |s|
    ensures forall i :: 0 <= i < |s| ==> r[i] == if at <= i < at + |src| then src[i - at] else s[i]
  {
    s[..at] + src + s[at + |src|..]
  }

  /** `System.arraycopy(src, 0, dest, at, |src|)`. */
  method ArrayCopy(src: seq<byte>, dest: array<byte>, at: nat)
    requires at + |src| <= dest.Length
    modifies dest
    ensures dest[..] == Splice(old(dest[..]), at, src)
  {
    forall i | 0 <= i < |src| {
      dest[at + i] := src[i];
    }
  }

  /** Java's `new byte[n]`: every element starts at zero. */
  function Zeroes(n: nat): (r: seq<byte>)
    ensures |r| == n
    ensures forall b | b in r :: b == 0
  {
    seq(n, _ => 0)
  }

  /**
   * The array after each step of `writeWavHeader`, in the order the Java code
   * writes it. `WriteWavHeader` goes through exactly these states, and
   * `WavHeaderWrites` shows that they end in `WavHeader`.
   */
  function AfterRiff(pcmLength: int32): seq<byte>
  {
    var s := Splice(Zeroes(HEADER_SIZE), 0, RIFF);
    var s := Splice(s, 4, LittleEndian(AddInt(pcmLength, 36), 4));
    var s := Splice(s, 8, WAVE);
    Splice(s, 12, FMT)
  }

  function AfterFmt(pcmLength: int32, sampleRate: int32, channels: int32): seq<byte>
  {
    var s: seq<byte> := AfterRiff(pcmLength)[16 := 16][20 := 1][22 := Low8(channels)];
    var s := Splice(s, 24, LittleEndian(sampleRate, 4));
    var s := Splice(s, 28, LittleEndian(MulInt(MulInt(sampleRate, channels), 2), 4));
    s[32 := Low8(MulInt(channels, 2))][34 := 16]
  }

  function AfterData(pcmLength: int32, sampleRate: int32, channels: int32): seq<byte>
  {
    var s := Splice(AfterFmt(pcmLength, sampleRate, channels), 36, DATA);
    Splice(s, 40, LittleEndian(pcmLength, 4))
  }

  /**
   * The four assignments `dest[at + k] = (byte) ((v >> 8k) & 0xff)`,
   * k = 0..3, that `writeWavHeader` writes out for each 32-bit field.
   */
  method PutInt32(dest: array<byte>, at: nat, v: int32)
    requires at + 4 <= dest.Length
    modifies dest
    ensures dest[..] == Splice(old(dest[..]), at, LittleEndian(v, 4))
  {
    dest[at] := Low8(v);
    dest[at + 1] := Low8(v / 0x100);
    dest[at + 2] := Low8(v / 0x1_0000);
    dest[at + 3] := Low8(v / 0x100_0000);
    LittleEndianBytes(v);
  }

  method WriteWavHeader(out: seq<byte>, pcmLength: int32, sampleRate: int32, channels: int32)
    returns (written: seq<byte>)
    ensures written == out + WavHeader(pcmLength, sampleRate, channels)
  {
    var byteRate := MulInt(MulInt(sampleRate, channels), 2);
    var totalLength := AddInt(pcmLength, 36);

    var header := new byte[HEADER_SIZE](_ => 0);
    assert header[..] == Zeroes(HEADER_SIZE);

    ArrayCopy(RIFF, header, 0);
    PutInt32(header, 4, totalLength);
    ArrayCopy(WAVE, header, 8);
    ArrayCopy(FMT, header, 12);
    ghost var before := header[..];
    header[16] := 16; header[20] := 1; header[22] := Low8(channels);
    ghost var expected: seq<byte> := before[16 := 16][20 := 1][22 := Low8(channels)];
    assert header[..] == expected;
    PutInt32(header, 24, sampleRate);
    PutInt32(header, 28, byteRate);
    before := header[..];
    header[32] := Low8(MulInt(channels, 2));  // block align
    header[34] := 16;                         // bits per sample
    expected := before[32 := Low8(MulInt(channels, 2))][34 := 16];
    assert header[..] == expected;
    ArrayCopy(DATA, header, 36);
    PutInt32(header, 40, pcmLength);

    assert header[..] == AfterData(pcmLength, sampleRate, channels);
    WavHeaderWrites(pcmLength, sampleRate, channels);
    written := out + header[..];
  }

  /** The writes of `writeWavHeader`, applied to a zero-filled array, give `WavHeader`. */
  lemma WavHeaderWrites(pcmLength: int32, sampleRate: int32, channels: int32)
    ensures AfterData(pcmLength, sampleRate, channels) == WavHeader(pcmLength, sampleRate, channels)
  {
    var s := AfterData(pcmLength, sampleRate, channels);
    RiffWrites(pcmLength, sampleRate, channels);
    FmtWrites(pcmLength, sampleRate, channels);
    DataWrites(pcmLength, sampleRate, channels);
    assert s == s[..12] + s[12..36] + s[36..];
  }

  lemma RiffWrites(pcmLength: int32, sampleRate: int32, channels: int32)
    ensures AfterData(pcmLength, sampleRate, channels)[..12] == RiffHeader(AddInt(pcmLength, 36))
  {
    var r := AfterRiff(pcmLength);
    assert r[..12] == RiffHeader(AddInt(pcmLength, 36));
    assert AfterFmt(pcmLength, sampleRate, channels)[..12] == r[..12];
  }

  lemma FmtWrites(pcmLength: int32, sampleRate: int32, channels: int32)
    ensures AfterData(pcmLength, sampleRate, channels)[12..36] == FmtChunk(sampleRate, channels)
  {
    var f := AfterFmt(pcmLength, sampleRate, channels);
    assert AfterData(pcmLength, sampleRate, channels)[12..36] == f[12..36];
    FmtFields(pcmLength, sampleRate, channels);
  }

  lemma FmtFields(pcmLength: int32, sampleRate: int32, channels: int32)
    ensures AfterFmt(pcmLength, sampleRate, channels)[12..36] == FmtChunk(sampleRate, channels)
  {
  }

  lemma DataWrites(pcmLength: int32, sampleRate: int32, channels: int32)
    ensures AfterData(pcmLength, sampleRate, channels)[36..] == DataHeader(pcmLength)
  {
  }

  //----------------------------------------------------------------------
  // What the header says: its layout, and what a reader gets back from it
  //----------------------------------------------------------------------

  /** The header is the RIFF header, then the "fmt " sub-chunk, then the "data" sub-chunk header. */
  lemma HeaderChunks(pcmLength: int32, sampleRate: int32, channels: int32)
    ensures var h := WavHeader(pcmLength, sampleRate, channels);
      && h[..12] == RiffHeader(AddInt(pcmLength, 36))
      && h[12..36] == FmtChunk(sampleRate, channels)
      && h[36..] == DataHeader(pcmLength)
  {
    Split3(RiffHeader(AddInt(pcmLength, 36)), FmtChunk(sampleRate, channels), DataHeader(pcmLength));
  }

  /** Bytes 0-3, 8-11, 12-15 and 36-39 are the four ASCII tags. */
  lemma HeaderTags(pcmLength: int32, sampleRate: int32, channels: int32)
    ensures var h := WavHeader(pcmLength, sampleRate, channels);
      h[0..4] == RIFF && h[8..12] == WAVE && h[12..16] == FMT && h[36..40] == DATA
  {
    var h := WavHeader(pcmLength, sampleRate, channels);
    HeaderChunks(pcmLength, sampleRate, channels);
    assert h[0..4] == h[..12][0..4] && h[8..12] == h[..12][8..12];
    assert h[12..16] == h[12..36][0..4];
    assert h[36..40] == h[36..][0..4];
  }

  /**
   * Bytes 4-7 hold `pcmLength + 36`, 24-27 the sample rate, 28-31 the byte
   * rate and 40-43 `pcmLength`, each as four little-endian bytes of the
   * Java `int` `writeWavHeader` computed.
   */
  lemma HeaderFields(pcmLength: int32, sampleRate: int32, channels: int32)
    ensures var h := WavHeader(pcmLength, sampleRate, channels);
      && h[4..8] == LittleEndian(AddInt(pcmLength, 36), 4)
      && h[24..28] == LittleEndian(sampleRate, 4)
      && h[28..32] == LittleEndian(MulInt(MulInt(sampleRate, channels), 2), 4)
      && h[40..44] == LittleEndian(pcmLength, 4)
  {
    var h := WavHeader(pcmLength, sampleRate, channels);
    HeaderChunks(pcmLength, sampleRate, channels);
    assert h[4..8] == h[..12][4..8];
    assert h[24..28] == h[12..36][12..16] && h[28..32] == h[12..36][16..20];
    assert h[40..44] == h[36..][4..8];
  }

  /**
   * The fixed fields: the fmt chunk size 16, the PCM format tag 1, the low
   * bytes of the channel count and of the block align, and 16 bits per
   * sample. Bytes 17-19, 21, 23, 33 and 35 are never assigned and keep the
   * zero of the fresh array.
   */
  lemma HeaderFixedBytes(pcmLength: int32, sampleRate: int32, channels: int32)
    ensures var h := WavHeader(pcmLength, sampleRate, channels);
      && h[16] == 16 && h[20] == 1 && h[22] == Low8(channels)
      && h[32] == Low8(MulInt(channels, 2)) && h[34] == 16
      && h[17] == 0 && h[18] == 0 && h[19] == 0 && h[21] == 0 && h[23] == 0
      && h[33] == 0 && h[35] == 0
  {
    var h := WavHeader(pcmLength, sampleRate, channels);
    HeaderChunks(pcmLength, sampleRate, channels);
    var f := FmtChunk(sampleRate, channels);
    assert forall k :: 4 <= k < 12 || 20 <= k < 24 ==> h[12 + k] == f[k];
    assert f[4..12] == [16, 0, 0, 0, 1, 0, Low8(channels), 0];
    assert f[20..24] == [Low8(MulInt(channels, 2)), 0, 16, 0];
  }

  /** The fields a reader of the "fmt " sub-chunk takes from it. */
  datatype Fmt = Fmt(
    fmtSize: int, formatTag: int, channels: int, sampleRate: int,
    byteRate: int, blockAlign: int, bitsPerSample: int)

  /** The fields a reader of the RIFF WAVE form takes from a canonical 44-byte header. */
  datatype WavFormat = WavFormat(riffSize: int, fmt: Fmt, dataSize: int)

  /** Reads the RIFF chunk size, or None when the "RIFF" or "WAVE" tag is missing. */
  function ParseRiff(r: seq<byte>): Option<nat>
    requires |r| == 12
  {
    if r[0..4] == RIFF && r[8..12] == WAVE then Some(FromLittleEndian(r[4..8])) else None
  }

  /** Reads the "fmt " sub-chunk, or None when its tag is missing. */
  function ParseFmt(f: seq<byte>): Option<Fmt>
    requires |f| == 24
  {
    if f[0..4] != FMT then None
    else Some(Fmt(
      FromLittleEndian(f[4..8]), FromLittleEndian(f[8..10]), FromLittleEndian(f[10..12]),
      FromLittleEndian(f[12..16]), FromLittleEndian(f[16..20]), FromLittleEndian(f[20..22]),
      FromLittleEndian(f[22..24])))
  }

  /** Reads the data size, or None when the "data" tag is missing. */
  function ParseData(d: seq<byte>): Option<nat>
    requires |d| == 8
  {
    if d[0..4] == DATA then Some(FromLittleEndian(d[4..8])) else None
  }

  /** Reads a canonical header, or None when it is too short or a tag is wrong. */
  function ParseHeader(h: seq<byte>): Option<WavFormat>
  {
    if |h| < HEADER_SIZE then None
    else
      var riff, fmt, data := ParseRiff(h[..12]), ParseFmt(h[12..36]), ParseData(h[36..44]);
      if riff.Some? && fmt.Some? && data.Some? then Some(WavFormat(riff.value, fmt.value, data.value))
      else None
  }

  /** The RIFF header reads back its chunk size modulo 2^32. */
  lemma ParseRiffHeader(totalLength: int32)
    ensures ParseRiff(RiffHeader(totalLength)) == Some(totalLength % TWO_32)
  {
    var r := RiffHeader(totalLength);
    assert r[0..4] == RIFF && r[4..8] == LittleEndian(totalLength, 4) && r[8..12] == WAVE;
    Le32Mod(totalLength);
  }

  /**
   * The "fmt " sub-chunk reads back 16-bit PCM with the caller's sample rate,
   * channel count and derived fields, each modulo its field's width.
   */
  lemma ParseFmtChunk(sampleRate: int32, channels: int32)
    ensures ParseFmt(FmtChunk(sampleRate, channels)) == Some(Fmt(
      16, 1, channels % 256, sampleRate % TWO_32,
      (sampleRate * channels * 2) % TWO_32, (channels * 2) % 256, 16))
  {
    var f := FmtChunk(sampleRate, channels);
    var byteRate := MulInt(MulInt(sampleRate, channels), 2);
    assert f[0..4] == FMT;
    assert FromLittleEndian(f[4..8]) == 16 by {
      assert f[4..8] == [16, 0, 0, 0];
      FromLittleEndian4(f[4..8]);
    }
    assert FromLittleEndian(f[8..10]) == 1 by {
      assert f[8..10] == [1, 0];
      FromLittleEndian2(f[8..10]);
    }
    assert FromLittleEndian(f[10..12]) == channels % 256 by {
      assert f[10..12] == [Low8(channels), 0];
      FromLittleEndian2(f[10..12]);
    }
    assert FromLittleEndian(f[12..16]) == sampleRate % TWO_32 by {
      assert f[12..16] == LittleEndian(sampleRate, 4);
      Le32Mod(sampleRate);
    }
    assert FromLittleEndian(f[16..20]) == (sampleRate * channels * 2) % TWO_32 by {
      assert f[16..20] == LittleEndian(byteRate, 4);
      Le32Mod(byteRate);
      WrapMod(sampleRate * channels, 2);
      WrapMod(Wrap(sampleRate * channels) * 2, 1);
    }
    assert FromLittleEndian(f[20..22]) == (channels * 2) % 256 by {
      assert f[20..22] == [Low8(MulInt(channels, 2)), 0];
      FromLittleEndian2(f[20..22]);
      WrapLow8(channels * 2);
    }
    assert FromLittleEndian(f[22..24]) == 16 by {
      assert f[22..24] == [16, 0];
      FromLittleEndian2(f[22..24]);
    }
  }

  /** The "data" sub-chunk header reads back the PCM length modulo 2^32. */
  lemma ParseDataHeader(pcmLength: int32)
    ensures ParseData(DataHeader(pcmLength)) == Some(pcmLength % TWO_32)
  {
    var d := DataHeader(pcmLength);
    assert d[0..4] == DATA && d[4..8] == LittleEndian(pcmLength, 4);
    Le32Mod(pcmLength);
  }

  /**
   * Reading back any header `writeWavHeader` writes: every field is what the
   * Java code computed, reduced modulo the field's width, so 32-bit overflow of
   * `pcmLength + 36` or of the byte rate, and channel counts of 256 or more,
   * show up exactly as Java's wrap-around and `(byte)` truncation make them.
   */
  lemma ParseWavHeader(pcmLength: int32, sampleRate: int32, channels: int32)
    ensures ParseHeader(WavHeader(pcmLength, sampleRate, channels)) == Some(WavFormat(
      (pcmLength + 36) % TWO_32,
      Fmt(16, 1, channels % 256, sampleRate % TWO_32,
          (sampleRate * channels * 2) % TWO_32, (channels * 2) % 256, 16),
      pcmLength % TWO_32))
  {
    var h := WavHeader(pcmLength, sampleRate, channels);
    HeaderChunks(pcmLength, sampleRate, channels);
    assert ParseRiff(h[..12]) == Some((pcmLength + 36) % TWO_32) by {
      ParseRiffHeader(AddInt(pcmLength, 36));
      WrapMod(pcmLength + 36, 1);
    }
    ParseFmtChunk(sampleRate, channels);
    assert h[36..44] == h[36..];
    ParseDataHeader(pcmLength);
  }

  /**
   * For the app's own call (a non-negative PCM length, a sample rate and
   * channel count whose byte rate fits an `int`, fewer than 128 channels)
   * the header reads back exactly the values it describes. The RIFF size is
   * exact even when `pcmLength + 36` overflows a Java `int`: the four bytes
   * read as an unsigned number are still `pcmLength + 36`.
   */
  lemma ParseWavHeaderInRange(pcmLength: int32, sampleRate: int32, channels: int32)
    requires 0 <= pcmLength
    requires 0 <= sampleRate && 0 <= channels < 128
    requires sampleRate * channels * 2 < 0x8000_0000
    ensures ParseHeader(WavHeader(pcmLength, sampleRate, channels)) == Some(WavFormat(
      pcmLength + 36,
      Fmt(16, 1, channels, sampleRate, sampleRate * channels * 2, channels * 2, 16),
      pcmLength))
  {
    var byteRate := sampleRate * channels * 2;
    assert 0 <= byteRate by {
      if channels > 0 { MulAtLeast(sampleRate + 1, channels); }
    }
    ModSmall(pcmLength + 36, TWO_32);
    ModSmall(channels, 256);
    ModSmall(sampleRate, TWO_32);
    ModSmall(byteRate, TWO_32);
    ModSmall(channels * 2, 256);
    ModSmall(pcmLength, TWO_32);
    var exact := WavFormat(pcmLength + 36, Fmt(16, 1, channels, sampleRate, byteRate, channels * 2, 16), pcmLength);
    assert exact == WavFormat(
      (pcmLength + 36) % TWO_32,
      Fmt(16, 1, channels % 256, sampleRate % TWO_32, byteRate % TWO_32, (channels * 2) % 256, 16),
      pcmLength % TWO_32);
    ParseWavHeader(pcmLength, sampleRate, channels);
  }

  /**
   * The four 32-bit fields hold the Java `int`s `writeWavHeader` computed: a
   * reader of signed little-endian integers gets them back exactly, wrapped
   * values included.
   */
  lemma HeaderIntFields(pcmLength: int32, sampleRate: int32, channels: int32)
    ensures var h := WavHeader(pcmLength, sampleRate, channels);
      && FromLittleEndian32(h[4..8]) == AddInt(pcmLength, 36)
      && FromLittleEndian32(h[24..28]) == sampleRate
      && FromLittleEndian32(h[28..32]) == MulInt(MulInt(sampleRate, channels), 2)
      && FromLittleEndian32(h[40..44]) == pcmLength
  {
    HeaderFields(pcmLength, sampleRate, channels);
    LittleEndian32RoundTrip(AddInt(pcmLength, 36));
    LittleEndian32RoundTrip(sampleRate);
    LittleEndian32RoundTrip(MulInt(MulInt(sampleRate, channels), 2));
    LittleEndian32RoundTrip(pcmLength);
  }

  /** A 32-bit little-endian field reads back as its value modulo 2^32. */
  lemma Le32Mod(v: int)
    ensures FromLittleEndian(LittleEndian(v, 4)) == v % TWO_32
  {
    LittleEndianRoundTrip(v, 4);
    assert Pow256(4) == TWO_32;
  }

  /** A 16-bit little-endian field, spelled out. */
  lemma FromLittleEndian2(s: seq<byte>)
    requires |s| == 2
    ensures FromLittleEndian(s) == s[0] as int + 256 * s[1] as int
  {
    assert s[1..][1..] == [];
  }

  /** A 32-bit little-endian field, spelled out. */
  lemma FromLittleEndian4(s: seq<byte>)
    requires |s| == 4
    ensures FromLittleEndian(s) == s[0] as int + 256 * s[1] as int + 0x1_0000 * s[2] as int + 0x100_0000 * s[3] as int
  {
    FromLittleEndian2(s[2..]);
    assert s[1..][1..] == s[2..];
  }

  /** Slicing a three-part concatenation back into its parts. */
  lemma Split3(a: seq<byte>, b: seq<byte>, c: seq<byte>)
    ensures (a + b + c)[..|a|] == a
    ensures (a + b + c)[|a|..|a| + |b|] == b
    ensures (a + b + c)[|a| + |b|..] == c
  {
  }

  //----------------------------------------------------------------------
  // Arithmetic facts behind the byte-level encoding
  //----------------------------------------------------------------------

  /** Java's wrap-around changes a value by a multiple of 2^32, so it is invisible modulo 2^32. */
  lemma WrapMod(x: int, c: int)
    ensures (Wrap(x) * c) % TWO_32 == (x * c) % TWO_32
  {
    var k := (x + 0x8000_0000) / TWO_32;
    assert Wrap(x) == x - k * TWO_32;
    assert Wrap(x) * c == x * c + (-k * c) * TWO_32;
    ModShift(x * c, -k * c, TWO_32);
  }

  /** ... and so it does not change the low byte either. */
  lemma WrapLow8(x: int)
    ensures Low8(Wrap(x)) == x % 256
  {
    var k := (x + 0x8000_0000) / TWO_32;
    assert Wrap(x) == x + (-k * 0x100_0000) * 256;
    ModShift(x, -k * 0x100_0000, 256);
  }

  /** A value already in range is its own remainder. */
  lemma ModSmall(x: int, d: int)
    requires 0 <= x < d
    ensures x % d == x
  {
    DivModUnique(x, d, 0, x);
  }

  /** Adding a multiple of `d` does not change the remainder modulo `d`. */
  lemma ModShift(a: int, k: int, d: int)
    requires d > 0
    ensures (a + k * d) % d == a % d
  {
    var q, r := a / d, a % d;
    assert a + k * d == d * (q + k) + r;
    DivModUnique(a + k * d, d, q + k, r);
  }

  /** Uniqueness of Euclidean division by a positive divisor. */
  lemma DivModUnique(x: int, d: int, q: int, r: int)
    requires d > 0 && 0 <= r < d && x == d * q + r
    ensures x / d == q && x % d == r
  {
    var q', r' := x / d, x % d;
    var k := q - q';
    assert d * k == r' - r by {
      assert d * q + r == d * q' + r';
      assert d * k == d * q - d * q';
    }
    if k >= 1 {
      MulAtLeast(d, k);
    } else if k <= -1 {
      MulAtLeast(d, -k);
    }
  }

  lemma MulAtLeast(d: int, k: int)
    requires d > 0 && k >= 1
    ensures d * k >= d
  {
    assert d * k == d + d * (k - 1);
    assert d * (k - 1) >= 0;
  }

  /** Dividing by `a` and then by `b` is dividing by `a * b`. */
  lemma DivDiv(x: int, a: int, b: int)
    requires a > 0 && b > 0
    ensures x / a / b == x / (a * b)
    ensures x % (a * b) == x % a + a * (x / a % b)
  {
    var q1, r1 := x / a, x % a;
    var q2, r2 := q1 / b, q1 % b;
    assert x == (a * b) * q2 + (a * r2 + r1) by {
      assert x == a * q1 + r1;
      assert q1 == b * q2 + r2;
      assert a * q1 == a * (b * q2) + a * r2;
      assert a * (b * q2) == (a * b) * q2;
    }
    assert a * r2 + r1 < a * b by {
      assert r2 <= b - 1;
      assert a * r2 <= a * (b - 1);
      assert a * (b - 1) == a * b - a;
    }
    assert 0 <= a * r2;
    DivModUnique(x, a * b, q2, a * r2 + r1);
  }

  /** Byte `k` of `LittleEndian(v, n)` is `(v >> 8k) & 0xff`, the form `writeWavHeader` uses. */
  lemma {:induction false} LittleEndianAt(v: int, n: nat, k: nat)
    requires k < n
    ensures LittleEndian(v, n)[k] == Low8(v / Pow256(k))
    decreases n
  {
    if k > 0 {
      LittleEndianAt(v / 256, n - 1, k - 1);
      DivDiv(v, 256, Pow256(k - 1));
    }
  }

  lemma LittleEndianBytes(v: int)
    ensures LittleEndian(v, 4)
         == [Low8(v), Low8(v / 0x100), Low8(v / 0x1_0000), Low8(v / 0x100_0000)]
  {
    LittleEndianAt(v, 4, 0);
    LittleEndianAt(v, 4, 1);
    LittleEndianAt(v, 4, 2);
    LittleEndianAt(v, 4, 3);
  }

  /** Splitting into little-endian bytes and joining them again keeps `v` modulo `256^n`. */
  lemma {:induction false} LittleEndianRoundTrip(v: int, n: nat)
    ensures FromLittleEndian(LittleEndian(v, n)) == v % Pow256(n)
    decreases n
  {
    if n > 0 {
      var s := LittleEndian(v, n);
      assert s[1..] == LittleEndian(v / 256, n - 1);
      LittleEndianRoundTrip(v / 256, n - 1);
      DivDiv(v, 256, Pow256(n - 1));
    }
  }

  /** Every Java `int` is recovered exactly from its four little-endian bytes. */
  lemma LittleEndian32RoundTrip(v: int32)
    ensures FromLittleEndian32(LittleEndian(v, 4)) == v
  {
    LittleEndianRoundTrip(v, 4);
    assert Pow256(4) == TWO_32;
  }
}

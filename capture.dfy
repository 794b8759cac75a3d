/**
 * The recording thread of MainActivity.startMicCapture: the capture loop
 * that accumulates PCM from the microphone into a ByteArrayOutputStream, and
 * the file it then writes, the WAV header followed by the accumulated PCM.
 *
 * The microphone is an input: the loop is a fold over the sequence of
 * results `recorder.read` returned, in order. The shared `isRecording`
 * flag and the 5-second clock only decide how many results there are, so
 * the sequence's length stands for them.
 */
module Capture {
  import opened Wrappers
  import opened Wav

  /** The sample rate the recorder is opened with. */
  const SAMPLE_RATE: int32 := 16000

  /** The recording is mono. */
  const CHANNELS: int32 := 1

  /**
   * One call `recorder.read(buffer, 0, buffer.length)`: the count it
   * returned (a negative value is an error code) and the buffer's contents
   * after it. AudioRecord never reports more bytes than the buffer holds.
   */
  datatype Read = Read(count: int, buffer: seq<byte>)
  type DeviceRead = r: Read | r.count <= |r.buffer| witness Read(0, [])

  /** What one read contributes: the first `count` bytes of the buffer, or nothing when `count <= 0`. */
  function Contribution(r: DeviceRead): (c: seq<byte>)
    ensures |c| == if r.count > 0 then r.count else 0
    ensures forall k | 0 <= k < |c| :: c[k] == r.buffer[k]
  {
    if r.count > 0 then r.buffer[..r.count] else []
  }

  /** The raw PCM after the given reads: each read's contribution, in order. */
  function Accumulated(results: seq<DeviceRead>): (pcm: seq<byte>)
  {
    if results == [] then [] else Contribution(results[0]) + Accumulated(results[1..])
  }

  /** The stream of bytes the loop writes to: the ByteArrayOutputStream `rawPcm`. */
  class ByteStream {
    var bytes: seq<byte>

    constructor ()
      ensures bytes == []
    {
      bytes := [];
    }

    /** `write(buffer, off, len)`: appends `buffer[off .. off + len)`. */
    method Write(buffer: seq<byte>, off: nat, len: nat)
      requires off + len <= |buffer|
      modifies this
      ensures bytes == old(bytes) + buffer[off..off + len]
    {
      bytes := bytes + buffer[off..off + len];
    }
  }

  /**
   * The capture loop: a read with a positive count appends that many bytes
   * of the buffer to the stream, any other read is ignored.
   */
  method CaptureLoop(results: seq<DeviceRead>) returns (rawPcm: seq<byte>)
    ensures rawPcm == Accumulated(results)
  {
    var stream := new ByteStream();
    var i := 0;
    while i < |results|
      invariant 0 <= i <= |results|
      invariant stream.bytes == Accumulated(results[..i])
    {
      var read := results[i].count;
      var buffer := results[i].buffer;
      if read > 0 {
        stream.Write(buffer, 0, read);
      }
      AccumulatedStep(results, i);
      i := i + 1;
    }
    assert results[..i] == results;
    rawPcm := stream.bytes;
  }

  /** The file the recording thread writes: the header for the PCM's length, then the PCM. */
  function WavFile(pcm: seq<byte>): (file: seq<byte>)
    requires |pcm| < 0x8000_0000
    ensures |file| == HEADER_SIZE + |pcm|
    ensures file[HEADER_SIZE..] == pcm
  {
    WavHeader(|pcm|, SAMPLE_RATE, CHANNELS) + pcm
  }

  /**
   * The recording thread from the first read to the file: capture, then
   * `writeWavHeader(fos, rawPcm.size(), sampleRate, 1)`, then
   * `rawPcm.writeTo(fos)`. A ByteArrayOutputStream holds at most 2^31 - 1
   * bytes, so the size always fits in an `int`.
   */
  method RecordWav(results: seq<DeviceRead>) returns (file: seq<byte>)
    requires |Accumulated(results)| < 0x8000_0000
    ensures file == WavFile(Accumulated(results))
  {
    var rawPcm := CaptureLoop(results);
    file := WriteWavHeader([], |rawPcm|, SAMPLE_RATE, CHANNELS);
    assert file == WavHeader(|rawPcm|, SAMPLE_RATE, CHANNELS) by {
      assert [] + WavHeader(|rawPcm|, SAMPLE_RATE, CHANNELS) == WavHeader(|rawPcm|, SAMPLE_RATE, CHANNELS);
    }
    file := file + rawPcm;
  }

  //----------------------------------------------------------------------
  // Properties of the accumulation
  //----------------------------------------------------------------------

  /** Accumulating two runs of reads one after the other gives the two results concatenated. */
  lemma {:induction false} AccumulatedAppend(a: seq<DeviceRead>, b: seq<DeviceRead>)
    ensures Accumulated(a + b) == Accumulated(a) + Accumulated(b)
  {
    if a == [] {
      assert a + b == b;
    } else {
      assert (a + b)[1..] == a[1..] + b;
      AccumulatedAppend(a[1..], b);
    }
  }

  /** A read appended after others adds its contribution. */
  lemma AccumulatedSnoc(results: seq<DeviceRead>, r: DeviceRead)
    ensures Accumulated(results + [r]) == Accumulated(results) + Contribution(r)
  {
    AccumulatedAppend(results, [r]);
    AccumulatedOne(r);
  }

  /** The reads with a positive count, in order. */
  function Positive(results: seq<DeviceRead>): (p: seq<DeviceRead>)
    ensures |p| <= |results|
    ensures forall i :: 0 <= i < |p| ==> p[i].count > 0
  {
    if results == [] then []
    else (if results[0].count > 0 then [results[0]] else []) + Positive(results[1..])
  }

  /** Reads with `count <= 0` leave the raw PCM unchanged: only the positive ones count. */
  lemma {:induction false} OnlyPositiveReadsCount(results: seq<DeviceRead>)
    ensures Accumulated(results) == Accumulated(Positive(results))
  {
    if results != [] {
      var first, rest := results[0], results[1..];
      OnlyPositiveReadsCount(rest);
      var head: seq<DeviceRead> := if first.count > 0 then [first] else [];
      AccumulatedAppend(head, Positive(rest));
      if first.count > 0 {
        AccumulatedOne(first);
      }
    }
  }

  /** The total of the positive counts. */
  function TotalRead(results: seq<DeviceRead>): (n: nat)
  {
    if results == [] then 0
    else (if results[0].count > 0 then results[0].count else 0) + TotalRead(results[1..])
  }

  /** The raw PCM is exactly as long as the positive counts add up to. */
  lemma {:induction false} AccumulatedLength(results: seq<DeviceRead>)
    ensures |Accumulated(results)| == TotalRead(results)
  {
    if results != [] {
      AccumulatedLength(results[1..]);
    }
  }

  /**
   * In order and unchanged: the bytes of read `i`, when its count is
   * positive, sit in the raw PCM right after everything the earlier reads
   * contributed.
   */
  lemma ReadLandsAt(results: seq<DeviceRead>, i: nat)
    requires i < |results| && results[i].count > 0
    ensures var at := |Accumulated(results[..i])|;
      at + results[i].count <= |Accumulated(results)|
      && Accumulated(results)[at..at + results[i].count] == results[i].buffer[..results[i].count]
  {
    AccumulatedAround(results, i);
    Split3(Accumulated(results[..i]), Contribution(results[i]), Accumulated(results[i + 1..]));
  }

  /** The raw PCM around one read: what came before, its own contribution, what came after. */
  lemma AccumulatedAround(results: seq<DeviceRead>, i: nat)
    requires i < |results|
    ensures Accumulated(results)
      == Accumulated(results[..i]) + Contribution(results[i]) + Accumulated(results[i + 1..])
  {
    AccumulatedSplit(results, i + 1);
    AccumulatedStep(results, i);
  }

  /** Splitting the reads anywhere splits the raw PCM there. */
  lemma AccumulatedSplit(results: seq<DeviceRead>, k: nat)
    requires k <= |results|
    ensures Accumulated(results) == Accumulated(results[..k]) + Accumulated(results[k..])
  {
    assert results == results[..k] + results[k..];
    AccumulatedAppend(results[..k], results[k..]);
  }

  /** One more read adds its contribution. */
  lemma AccumulatedStep(results: seq<DeviceRead>, i: nat)
    requires i < |results|
    ensures Accumulated(results[..i + 1]) == Accumulated(results[..i]) + Contribution(results[i])
  {
    assert results[..i + 1] == results[..i] + [results[i]];
    AccumulatedSnoc(results[..i], results[i]);
  }

  /** A single read accumulates to its contribution. */
  lemma AccumulatedOne(r: DeviceRead)
    ensures Accumulated([r]) == Contribution(r)
  {
    assert [r][1..] == [];
  }

  //----------------------------------------------------------------------
  // Properties of the recorded file
  //----------------------------------------------------------------------

  /**
   * A reader of the recorded file finds 16-bit mono PCM at 16000 Hz
   * (byte rate 32000, block align 2), a RIFF size of the file's length
   * less 8, a data size of the file's length less 44, and after the header
   * exactly the captured bytes, unchanged and in order.
   */
  lemma RecordedFile(pcm: seq<byte>)
    requires |pcm| < 0x8000_0000
    ensures var file := WavFile(pcm);
      && ParseHeader(file[..HEADER_SIZE]) == Some(WavFormat(
           |file| - 8, Fmt(16, 1, 1, 16000, 32000, 2, 16), |file| - HEADER_SIZE))
      && file[HEADER_SIZE..] == pcm
  {
    var file := WavFile(pcm);
    assert file[..HEADER_SIZE] == WavHeader(|pcm|, SAMPLE_RATE, CHANNELS);
    ParseWavHeaderInRange(|pcm|, SAMPLE_RATE, CHANNELS);
  }
}

# Speech recognition app: WAV encoding and transcription handling

This project models the deterministic core of an Android speech recognition app (`MainActivity`, `TranscribeHelper`) in Dafny. The app records from the microphone, wraps the PCM in a WAV file, sends it to a cloud recognizer and shows the transcript. The model covers four pieces and proves what each promises:

- **`wav.dfy`, module `Wav`**: `writeWavHeader`, which fills a zero-initialised 44-byte array index by index with the canonical RIFF WAVE header for 16-bit PCM and writes it to the output.
  - Java `int` arithmetic is modelled exactly: `Wrap` gives two's-complement wrap-around.
  - `(byte)((v >> 8k) & 0xff)` is `Low8(v / 256^k)`, and a byte is kept as its unsigned bit pattern.
  - The method works on an `array` and is proved equal to the header function `WavHeader`. That function is then shown to lay out the tags, fields and zero bytes as the RIFF WAVE form requires.
  - A reader `ParseHeader` gets back every field. The general result (`ParseWavHeader`) holds modulo the field widths. For the app's own range it is exact (`ParseWavHeaderInRange`).
- **`capture.dfy`, module `Capture`**: the capture loop, which appends `buffer[0, read)` to a `ByteArrayOutputStream` for every positive `read`, and the recorded file (header, then the PCM).
  - The microphone is an input: a sequence of read results. A read never reports more bytes than its buffer holds (the subset type `DeviceRead`).
  - The stop flag and the 5-second clock only decide how long that sequence is.
- **`transcribe.dfy`, module `Transcription`**: the handling of the recognizer's answer.
  - The HTTP status and the shape of the parsed JSON choose one of four outcomes: the "Error: " + body failure, the two "nothing found" failures, or success.
  - On success, the transcript is the first alternative of every result that has alternatives, each followed by a newline.
  - Every Gson accessor that throws on an unexpected shape leads to the `catch`, modelled as the outcome `Thrown`.
- **`request.dfy`, module `Request`**: the JSON request, built by `addProperty`/`add` calls with the insertion-ordered, replace-in-place behaviour of a Gson `JsonObject`. It is proved equal to the constant record `CONFIG` plus the audio text.

`wrappers.dfy` holds the `Option` type.

Where the model follows the code rather than a plain reading of the app's behaviour:
- A `results` member that is not an array, and an `alternatives` member that is JSON null, throw. They reach the `catch` as `Thrown`; they are not skipped.
- The RIFF size written for `pcmLength + 36` can overflow a Java `int`. It still reads back exactly as an unsigned 32-bit field.

## Model

| member | source | states |
|---|---|---|
| Wav.WriteWavHeader | app/src/main/java/com/example/speechrecognition/MainActivity.java:120-151 | filling the zeroed 44-byte array as `writeWavHeader` does and writing it leaves the output as before followed by exactly `WavHeader(pcmLength, sampleRate, channels)` |
| Wav.PutInt32 | app/src/main/java/com/example/speechrecognition/MainActivity.java:127-130 | the four shift-and-mask byte stores put the little-endian encoding of the `int` at the offset and change no other byte |
| Wav.ArrayCopy | app/src/main/java/com/example/speechrecognition/MainActivity.java:126 | `System.arraycopy` of a tag puts its bytes at the offset and leaves the rest of the array unchanged |
| Wav.WavHeaderWrites | app/src/main/java/com/example/speechrecognition/MainActivity.java:124-148 | the array state after every store, starting from all zeroes, is the header function's value |
| Wav.WavHeader | app/src/main/java/com/example/speechrecognition/MainActivity.java:124 | the header is exactly 44 bytes long |
| Wav.HeaderChunks | app/src/main/java/com/example/speechrecognition/MainActivity.java:126-148 | bytes 0-11 are the RIFF header, 12-35 the fmt sub-chunk, 36-43 the data sub-chunk header |
| Wav.HeaderTags | app/src/main/java/com/example/speechrecognition/MainActivity.java:126-144 | bytes 0-3, 8-11, 12-15 and 36-39 are "RIFF", "WAVE", "fmt " and "data" |
| Wav.TagsAreAscii | app/src/main/java/com/example/speechrecognition/MainActivity.java:126-144 | the four tag byte strings are the ASCII bytes `getBytes()` gives for those names |
| Wav.HeaderFields | app/src/main/java/com/example/speechrecognition/MainActivity.java:121-148 | bytes 4-7, 24-27, 28-31 and 40-43 are the little-endian encodings of `pcmLength + 36`, `sampleRate`, `sampleRate * channels * 2` and `pcmLength`, as Java ints |
| Wav.HeaderFixedBytes | app/src/main/java/com/example/speechrecognition/MainActivity.java:124-143 | bytes 16, 20 and 34 are 16, 1 and 16; bytes 22 and 32 are the low bytes of `channels` and `channels * 2`; bytes 17-19, 21, 23, 33 and 35 stay zero |
| Wav.HeaderIntFields | app/src/main/java/com/example/speechrecognition/MainActivity.java:121-148 | reading the four 32-bit fields as signed little-endian ints gives back exactly the ints the Java code computed, wrapped values included |
| Wav.ParseRiffHeader | app/src/main/java/com/example/speechrecognition/MainActivity.java:126-131 | a reader of the RIFF header finds both tags and gets back the chunk size modulo 2^32 |
| Wav.ParseFmtChunk | app/src/main/java/com/example/speechrecognition/MainActivity.java:132-143 | a reader of the fmt sub-chunk gets size 16, PCM tag 1, channels mod 256, the sample rate and byte rate mod 2^32, block align mod 256, 16 bits per sample |
| Wav.ParseDataHeader | app/src/main/java/com/example/speechrecognition/MainActivity.java:144-148 | a reader of the data sub-chunk header finds the tag and gets back the PCM length modulo 2^32 |
| Wav.ParseWavHeader | app/src/main/java/com/example/speechrecognition/MainActivity.java:121-148 | for every input, parsing the header recovers each field as the Java code computed it, reduced to the field's width |
| Wav.ParseWavHeaderInRange | app/src/main/java/com/example/speechrecognition/MainActivity.java:121-148 | for a non-negative PCM length, a byte rate that fits an int and fewer than 128 channels, parsing recovers `pcmLength + 36`, the sample rate, the channels, the byte rate, the block align and `pcmLength` exactly |
| Wav.LittleEndianBytes | app/src/main/java/com/example/speechrecognition/MainActivity.java:127-130 | the four little-endian bytes of a value are its low byte and the low bytes of it shifted right by 8, 16 and 24 |
| Wav.LittleEndianRoundTrip | app/src/main/java/com/example/speechrecognition/MainActivity.java:127-130 | joining the n little-endian bytes of a value gives the value modulo 256^n |
| Wav.LittleEndian32RoundTrip | app/src/main/java/com/example/speechrecognition/MainActivity.java:127-130 | joining the four bytes of a Java int as a signed number gives the int back |
| Wav.Wrap | app/src/main/java/com/example/speechrecognition/MainActivity.java:121-122 | Java int arithmetic: the result is an int differing from the exact value by a multiple of 2^32, and equal to it when it fits |
| Capture.CaptureLoop | app/src/main/java/com/example/speechrecognition/MainActivity.java:83-86 | after the loop the stream holds the in-order contributions of all reads, each the first `count` bytes of its buffer when `count > 0` and nothing otherwise |
| Capture.ByteStream.Write | app/src/main/java/com/example/speechrecognition/MainActivity.java:85 | `rawPcm.write(buffer, 0, read)` appends exactly `buffer[0, read)` |
| Capture.RecordWav | app/src/main/java/com/example/speechrecognition/MainActivity.java:83-93 | the written file is the header for the accumulated PCM's length, 16000 Hz and one channel, followed by that PCM |
| Capture.WavFile | app/src/main/java/com/example/speechrecognition/MainActivity.java:92-93 | the file is 44 bytes longer than the PCM, and everything after the header is the PCM unchanged |
| Capture.Contribution | app/src/main/java/com/example/speechrecognition/MainActivity.java:84-85 | what one read adds is a prefix of its buffer, exactly `count` bytes long when `count > 0` and empty otherwise, so it never exceeds what `read` reported |
| Capture.AccumulatedAppend | app/src/main/java/com/example/speechrecognition/MainActivity.java:83-86 | accumulating two runs of reads in turn gives the two results concatenated |
| Capture.OnlyPositiveReadsCount | app/src/main/java/com/example/speechrecognition/MainActivity.java:85 | dropping every read with `count <= 0` leaves the raw PCM unchanged |
| Capture.AccumulatedLength | app/src/main/java/com/example/speechrecognition/MainActivity.java:84-85 | the raw PCM's length is the sum of the positive counts |
| Capture.ReadLandsAt | app/src/main/java/com/example/speechrecognition/MainActivity.java:84-85 | each positive read's bytes sit unchanged in the raw PCM right after everything earlier reads contributed |
| Capture.AccumulatedAround | app/src/main/java/com/example/speechrecognition/MainActivity.java:83-86 | the raw PCM is what the reads before one read contributed, then that read's contribution, then what the reads after it contributed |
| Capture.AccumulatedSplit | app/src/main/java/com/example/speechrecognition/MainActivity.java:83-86 | splitting the sequence of reads at any point splits the raw PCM at the corresponding point |
| Capture.AccumulatedStep | app/src/main/java/com/example/speechrecognition/MainActivity.java:84-85 | one more loop iteration appends exactly that read's contribution |
| Capture.AccumulatedSnoc | app/src/main/java/com/example/speechrecognition/MainActivity.java:84-85 | a read after any others adds its contribution at the end |
| Capture.AccumulatedOne | app/src/main/java/com/example/speechrecognition/MainActivity.java:84-85 | a single read accumulates to its own contribution |
| Capture.RecordedFile | app/src/main/java/com/example/speechrecognition/MainActivity.java:92-93 | a reader of any recorded file finds 16-bit mono PCM at 16000 Hz, a RIFF size of the file's length less 8, a data size of its length less 44, and after the header exactly the captured bytes |
| Transcription.TextBuilder.Append | app/src/main/java/com/example/speechrecognition/TranscribeHelper.java:84 | `append(s)` leaves the earlier text followed by exactly `s` |
| Transcription.BuildTranscript | app/src/main/java/com/example/speechrecognition/TranscribeHelper.java:77-86 | the StringBuilder loop ends with the transcript function's value, or throws (None) exactly when that function says so |
| Transcription.Transcribe | app/src/main/java/com/example/speechrecognition/TranscribeHelper.java:70-96 | the branch tree and the loop together produce exactly the classification's outcome |
| Transcription.LinesNoneIff | app/src/main/java/com/example/speechrecognition/TranscribeHelper.java:78-86 | the loop throws if and only if some result's iteration throws: not an object, `alternatives` not an array, or a first alternative whose transcript is missing or that `getAsString` rejects (JSON null, an object, an array not of exactly one element) |
| Transcription.ThrowIsFinal | app/src/main/java/com/example/speechrecognition/TranscribeHelper.java:78-86 | one throwing result makes the whole loop throw, whatever surrounds it |
| Transcription.LinesCount | app/src/main/java/com/example/speechrecognition/TranscribeHelper.java:81-84 | a loop that completes appends one line per result whose alternatives are a non-empty array |
| Transcription.LinesPrefix | app/src/main/java/com/example/speechrecognition/TranscribeHelper.java:77-86 | the lines after the first i results are a prefix of the final lines: later iterations only append |
| Transcription.LineOfEntry | app/src/main/java/com/example/speechrecognition/TranscribeHelper.java:78-84 | line number k, where k counts the earlier results with alternatives, is result i's first transcript |
| Transcription.EveryEntryOneLine | app/src/main/java/com/example/speechrecognition/TranscribeHelper.java:78-84 | when each of N results has a first alternative with a transcript, there are exactly N lines, in order, each that result's first transcript |
| Transcription.JoinLinesSnoc | app/src/main/java/com/example/speechrecognition/TranscribeHelper.java:84 | appending a text and then a newline extends the joined lines by that one line |
| Transcription.JoinLinesNewlines | app/src/main/java/com/example/speechrecognition/TranscribeHelper.java:84 | with newline-free lines the joined text has exactly one newline per line |
| Transcription.JoinLinesShape | app/src/main/java/com/example/speechrecognition/TranscribeHelper.java:84-87 | the joined text is empty if and only if there are no lines; otherwise its last character is a newline |
| Transcription.SplitJoinLines | app/src/main/java/com/example/speechrecognition/TranscribeHelper.java:84-87 | splitting the joined text after each newline gives back the newline-free lines |
| Transcription.TranscriptNewlines | app/src/main/java/com/example/speechrecognition/TranscribeHelper.java:77-87 | with newline-free transcripts the success text holds one newline per result with alternatives; when there is one, the text ends with a newline |
| Transcription.HttpErrorMessage | app/src/main/java/com/example/speechrecognition/TranscribeHelper.java:89-95 | an "Error: " message never equals either of the other two error messages, whatever the body |
| Transcription.HttpErrorOutcome | app/src/main/java/com/example/speechrecognition/TranscribeHelper.java:70-95 | the outcome is the failure "Error: " + body if and only if the status is not successful |
| Transcription.EmptyResponseOutcome | app/src/main/java/com/example/speechrecognition/TranscribeHelper.java:70-92 | the "Empty response" failure occurs if and only if the status is successful and `results` is absent or JSON null |
| Transcription.NoTranscriptionOutcome | app/src/main/java/com/example/speechrecognition/TranscribeHelper.java:70-89 | "No transcription found." occurs if and only if the status is successful and `results` is an empty array |
| Transcription.SuccessOutcome | app/src/main/java/com/example/speechrecognition/TranscribeHelper.java:70-87 | success occurs if and only if the status is successful and `results` is a non-empty array with no throwing result; the transcript is then the joined lines |
| Transcription.ThrownOutcome | app/src/main/java/com/example/speechrecognition/TranscribeHelper.java:70-100 | the exception path is taken if and only if the status is successful and the body, `results` or some result has a shape the Gson accessors reject |
| Transcription.NoAlternativesIsEmptySuccess | app/src/main/java/com/example/speechrecognition/TranscribeHelper.java:76-87 | a non-empty `results` in which no result has alternatives gives success with the empty transcript, not an error |
| Request.PutLookup | app/src/main/java/com/example/speechrecognition/TranscribeHelper.java:37-41 | after `addProperty(key, value)` the key holds the value and every other key keeps its value |
| Request.PutKeys | app/src/main/java/com/example/speechrecognition/TranscribeHelper.java:37-47 | adding a member keeps the key order; a new key goes last, an existing key stays where it is |
| Request.PutDistinct | app/src/main/java/com/example/speechrecognition/TranscribeHelper.java:37-47 | adding a member keeps every key unique |
| Request.PutTwice | app/src/main/java/com/example/speechrecognition/TranscribeHelper.java:39-41 | adding the same member a second time, as line 41 does, changes nothing |
| Request.PutNew | app/src/main/java/com/example/speechrecognition/TranscribeHelper.java:37-54 | adding a key the object lacks appends it |
| Request.LookupAt | app/src/main/java/com/example/speechrecognition/TranscribeHelper.java:36-54 | in an object with distinct keys a lookup of any member's key finds that member's value |
| Request.BuildRequestIsConfig | app/src/main/java/com/example/speechrecognition/TranscribeHelper.java:36-54 | the request built by the Java code's sequence of `addProperty`/`add` calls is the constant settings record with the audio text, with a single `languageCode` |
| Request.RenderConfigFields | app/src/main/java/com/example/speechrecognition/TranscribeHelper.java:36-47 | the settings' JSON has each key once, and each key gives back its field |
| Request.ConfigFields | app/src/main/java/com/example/speechrecognition/TranscribeHelper.java:36-47 | the settings are LINEAR16, 16000 Hz, one `languageCode` "en-US", and alternative languages hi-IN, es-ES, fr-FR in that order |
| Request.RequestFields | app/src/main/java/com/example/speechrecognition/TranscribeHelper.java:49-54 | the request has distinct keys `config` and `audio`, holding the settings and `{content: audio text}` |
| Request.ConfigMatchesRecording | app/src/main/java/com/example/speechrecognition/TranscribeHelper.java:37-38 | for every recordable PCM, the declared sample rate is the recorder's and the one a reader finds in the WAV header, and the header's format (tag 1, 16 bits per sample) is the linear PCM LINEAR16 names |

## Left out

- Android UI, permission requests, button wiring and the "Error: " / "Recording error: " prefixes the activity adds before showing a message: platform glue.
- Copying the credentials resource to a file, `System.setProperty`, and the OAuth token exchange: file I/O and a foreign library.
- The recording thread, `runOnUiThread`, the shared `isRecording` flag, the 5000 ms clock, and the worker thread of `transcribeAudio`: concurrency and wall-clock time. The capture loop is a fold over a given sequence of read results.
- `AudioRecord` creation, start, stop and release; `FileOutputStream`; `fos.close()`; `readAllBytes`: device and file I/O. The output stream is the sequence of bytes written so far.
- The exception the "Recording error" path reports when a write or a read throws: I/O failure is not modelled.
- OkHttp request execution and the request headers, the base64 encoding of the file, the JSON text produced by `requestJson.toString()` and JSON parsing by Gson: foreign libraries and network access. The model takes the base64 text as a string and the response as its parsed shape.
- The text of the exception message reported by the `catch` ("Exception: " + message): it is produced by the libraries, so the outcome is the abstract `Thrown`.
- `System.out.println` of the response: logging.
- Request.BuildRequest: the request objects are built as values, not as mutable `JsonObject`s. Nothing else holds them while they are built, so no aliasing is lost.
- Capture.RecordWav: requires the accumulated PCM to be shorter than 2^31 bytes, the most a Java byte array (and so a `ByteArrayOutputStream`) can hold.

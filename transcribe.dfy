/**
 * What TranscribeHelper.transcribeAudio makes of the recognizer's answer:
 * the HTTP status decides between an error and parsing, the shape of the
 * parsed JSON decides between the two "nothing found" errors and the
 * transcript, and the transcript is the first alternative of every result
 * that has alternatives, each followed by a newline.
 *
 * The JSON parser is not modelled: a response comes with the shape Gson
 * would see in its body, reduced to the distinctions the code makes. Every
 * way the Gson accessors can throw (a body that is not an object, a
 * `results` or `alternatives` member that is not an array, an entry or an
 * alternative that is not an object, a transcript that is missing or that
 * `getAsString` rejects: JSON null, an object, or an array not of exactly
 * one element) leads to the same `catch`, modelled as the outcome Thrown.
 * A number or boolean transcript is not an error: `getAsString` gives its
 * text.
 */
module Transcription {
  import opened Wrappers

  /**
   * The first element of an `alternatives` array as the code reads it:
   * Some(text) when `getAsJsonObject().get("transcript").getAsString()`
   * yields `text` (for a number or boolean, its text; for a one-element
   * array, that element's), None when any of those calls throws.
   */
  datatype Alternative = Alternative(transcript: Option<string>)

  /**
   * The `alternatives` member of a result: absent (Gson returns Java null,
   * which the code skips), present but not an array (JSON null included:
   * the cast to JsonArray throws), or an array.
   */
  datatype Alternatives =
    | AlternativesAbsent
    | AlternativesNotArray
    | AlternativesArray(items: seq<Alternative>)

  /** One element of the `results` array: an object with its `alternatives`, or anything else. */
  datatype Entry = EntryNotObject | EntryObject(alternatives: Alternatives)

  /** The `results` member of the response object. */
  datatype Results =
    | ResultsAbsent
    | ResultsNull
    | ResultsNotArray
    | ResultsArray(entries: seq<Entry>)

  /** The response body as `JsonParser.parseString(body).getAsJsonObject()` sees it. */
  datatype Body = BodyNotObject | BodyObject(results: Results)

  /** What the HTTP call returned: `isSuccessful()`, the body text and its parse. */
  datatype Response = Response(successful: bool, body: string, json: Body)

  /**
   * Which callback the code calls, with what: `onSuccess(transcript)`,
   * `onError(message)` from one of the three explicit branches, or the
   * `catch` that reports an exception's message.
   */
  datatype Outcome = Success(transcript: string) | Failure(message: string) | Thrown

  const HTTP_ERROR_PREFIX: string := "Error: "
  // Written in two pieces only so that the verifier sees its characters.
  const EMPTY_RESPONSE: string := "Empty response: " + "No 'results' field in response."
  const NO_TRANSCRIPTION: string := "No transcription found."

  /** What one iteration of the loop over `results` does. */
  datatype Step = Skip | Append(text: string) | Throw

  /** The iteration for one entry: the object cast, the array cast, the emptiness test, the transcript. */
  function StepOf(e: Entry): Step
  {
    match e
    case EntryNotObject => Throw
    case EntryObject(AlternativesAbsent) => Skip
    case EntryObject(AlternativesNotArray) => Throw
    case EntryObject(AlternativesArray(items)) =>
      if |items| == 0 then Skip
      else if items[0].transcript.None? then Throw
      else Append(items[0].transcript.value)
  }

  /** An entry whose `alternatives` is a non-empty array. */
  predicate HasAlternatives(e: Entry)
  {
    e.EntryObject? && e.alternatives.AlternativesArray? && |e.alternatives.items| > 0
  }

  /** What the first alternative of an entry with alternatives yields. */
  function FirstTranscript(e: Entry): Option<string>
    requires HasAlternatives(e)
  {
    e.alternatives.items[0].transcript
  }

  /** The number of entries with alternatives. */
  function CountWithAlternatives(entries: seq<Entry>): (n: nat)
    ensures n <= |entries|
  {
    if entries == [] then 0
    else CountWithAlternatives(entries[..|entries| - 1]) + (if HasAlternatives(entries[|entries| - 1]) then 1 else 0)
  }

  /** The transcripts the loop appends, in order, or None when an iteration throws. */
  function Lines(entries: seq<Entry>): Option<seq<string>>
  {
    if entries == [] then Some([])
    else
      match Lines(entries[..|entries| - 1])
      case None => None
      case Some(lines) =>
        match StepOf(entries[|entries| - 1])
        case Skip => Some(lines)
        case Append(text) => Some(lines + [text])
        case Throw => None
  }

  /** Every line followed by a newline, as the StringBuilder receives them. */
  function JoinLines(lines: seq<string>): (s: string)
  {
    if lines == [] then "" else lines[0] + "\n" + JoinLines(lines[1..])
  }

  /** The string `transcript.toString()` returns after the loop, or None when it threw. */
  function Transcript(entries: seq<Entry>): Option<string>
  {
    match Lines(entries)
    case None => None
    case Some(lines) => Some(JoinLines(lines))
  }

  /** The decision tree of lines 70-96. */
  function Classify(r: Response): Outcome
  {
    if !r.successful then Failure(HTTP_ERROR_PREFIX + r.body)
    else
      match r.json
      case BodyNotObject => Thrown
      case BodyObject(ResultsAbsent) => Failure(EMPTY_RESPONSE)
      case BodyObject(ResultsNull) => Failure(EMPTY_RESPONSE)
      case BodyObject(ResultsNotArray) => Thrown
      case BodyObject(ResultsArray(entries)) =>
        if |entries| > 0 then
          match Transcript(entries)
          case None => Thrown
          case Some(t) => Success(t)
        else Failure(NO_TRANSCRIPTION)
  }

  //----------------------------------------------------------------------
  // The loop and the procedure
  //----------------------------------------------------------------------

  /** The StringBuilder the loop appends to. */
  class TextBuilder {
    var text: string

    constructor ()
      ensures text == ""
    {
      text := "";
    }

    /** `append(s)`. */
    method Append(s: string)
      modifies this
      ensures text == old(text) + s
    {
      text := text + s;
    }
  }

  /**
   * The loop of lines 77-86: None when an iteration throws, otherwise the
   * StringBuilder's final contents.
   */
  method BuildTranscript(entries: seq<Entry>) returns (r: Option<string>)
    ensures r == Transcript(entries)
  {
    var transcript := new TextBuilder();
    var i := 0;
    while i < |entries|
      invariant 0 <= i <= |entries|
      invariant Lines(entries[..i]).Some?
      invariant transcript.text == JoinLines(Lines(entries[..i]).value)
    {
      assert entries[..i + 1][..i] == entries[..i];
      var result := entries[i];
      if result.EntryNotObject? {
        ThrowIsFinal(entries, i);
        return None;
      }
      var alternatives := result.alternatives;
      if alternatives.AlternativesNotArray? {
        ThrowIsFinal(entries, i);
        return None;
      }
      if alternatives.AlternativesArray? && |alternatives.items| > 0 {
        var first := alternatives.items[0];
        if first.transcript.None? {
          ThrowIsFinal(entries, i);
          return None;
        }
        JoinLinesSnoc(Lines(entries[..i]).value, first.transcript.value);
        transcript.Append(first.transcript.value);
        transcript.Append("\n");
      }
      i := i + 1;
    }
    assert entries[..i] == entries;
    r := Some(transcript.text);
  }

  /** Lines 70-96 as statements, with the loop as BuildTranscript. */
  method Transcribe(r: Response) returns (outcome: Outcome)
    ensures outcome == Classify(r)
  {
    if !r.successful {
      return Failure(HTTP_ERROR_PREFIX + r.body);
    }
    if r.json.BodyNotObject? {
      return Thrown;
    }
    var results := r.json.results;
    if results.ResultsAbsent? || results.ResultsNull? {
      return Failure(EMPTY_RESPONSE);
    }
    if results.ResultsNotArray? {
      return Thrown;
    }
    if |results.entries| > 0 {
      var t := BuildTranscript(results.entries);
      if t.None? {
        return Thrown;
      }
      return Success(t.value);
    }
    return Failure(NO_TRANSCRIPTION);
  }

  //----------------------------------------------------------------------
  // The loop over results
  //----------------------------------------------------------------------

  /** The loop throws exactly when some entry's iteration throws. */
  lemma {:induction false} LinesNoneIff(entries: seq<Entry>)
    ensures Lines(entries).None? <==> exists i :: 0 <= i < |entries| && StepOf(entries[i]).Throw?
  {
    if entries != [] {
      var init := entries[..|entries| - 1];
      LinesNoneIff(init);
      if exists i :: 0 <= i < |init| && StepOf(init[i]).Throw? {
        var i :| 0 <= i < |init| && StepOf(init[i]).Throw?;
        assert entries[i] == init[i];
      }
      if exists i :: 0 <= i < |entries| && StepOf(entries[i]).Throw? {
        var i :| 0 <= i < |entries| && StepOf(entries[i]).Throw?;
        if i < |init| { assert init[i] == entries[i]; }
      }
    }
  }

  /** A throwing entry makes the whole loop throw, whatever comes before or after it. */
  lemma ThrowIsFinal(entries: seq<Entry>, i: nat)
    requires i < |entries| && StepOf(entries[i]).Throw?
    ensures Lines(entries).None?
  {
    LinesNoneIff(entries);
  }

  /** One line per entry with alternatives. */
  lemma {:induction false} LinesCount(entries: seq<Entry>)
    requires Lines(entries).Some?
    ensures |Lines(entries).value| == CountWithAlternatives(entries)
  {
    if entries != [] {
      LinesCount(entries[..|entries| - 1]);
    }
  }

  /** The loop over a longer run of results extends its lines, never rewrites them. */
  lemma {:induction false} LinesPrefix(entries: seq<Entry>, i: nat)
    requires i <= |entries| && Lines(entries).Some?
    ensures Lines(entries[..i]).Some?
    ensures Lines(entries[..i]).value <= Lines(entries).value
    decreases |entries| - i
  {
    if i < |entries| {
      var init := entries[..|entries| - 1];
      assert init[..i] == entries[..i];
      LinesPrefix(init, i);
    } else {
      assert entries[..i] == entries;
    }
  }

  /**
   * In order: result `i`, when it has alternatives, gives line number
   * "how many earlier results had alternatives", and that line is its
   * first alternative's transcript.
   */
  lemma LineOfEntry(entries: seq<Entry>, i: nat)
    requires Lines(entries).Some? && i < |entries| && HasAlternatives(entries[i])
    ensures var k := CountWithAlternatives(entries[..i]);
      k < |Lines(entries).value|
      && FirstTranscript(entries[i]) == Some(Lines(entries).value[k])
  {
    var upto := entries[..i + 1];
    LinesPrefix(entries, i + 1);
    assert upto[..i] == entries[..i];
    LinesCount(entries[..i]);
    if StepOf(entries[i]).Throw? {
      ThrowIsFinal(entries, i);
    }
  }

  /**
   * When every result has alternatives with a transcript, there is exactly
   * one line per result, in the results' order, each the first
   * alternative's transcript.
   */
  lemma {:induction false} EveryEntryOneLine(entries: seq<Entry>)
    requires forall i :: 0 <= i < |entries| ==> HasAlternatives(entries[i]) && FirstTranscript(entries[i]).Some?
    ensures Lines(entries).Some?
    ensures |Lines(entries).value| == |entries|
    ensures forall k :: 0 <= k < |entries| ==> Lines(entries).value[k] == FirstTranscript(entries[k]).value
  {
    if entries != [] {
      var init := entries[..|entries| - 1];
      EveryEntryOneLine(init);
      var last := entries[|entries| - 1];
      assert StepOf(last) == Append(last.alternatives.items[0].transcript.value);
      forall k | 0 <= k < |entries|
        ensures Lines(entries).value[k] == FirstTranscript(entries[k]).value
      {
        if k < |init| { assert init[k] == entries[k]; }
      }
    }
  }

  //----------------------------------------------------------------------
  // The joined transcript
  //----------------------------------------------------------------------

  /** Appending one more line at the end, as the loop does. */
  lemma {:induction false} JoinLinesSnoc(lines: seq<string>, line: string)
    ensures JoinLines(lines + [line]) == JoinLines(lines) + line + "\n"
  {
    if lines != [] {
      assert (lines + [line])[1..] == lines[1..] + [line];
      JoinLinesSnoc(lines[1..], line);
    }
  }

  /** The number of newline characters. */
  function Newlines(s: string): (n: nat)
    ensures n <= |s|
  {
    if s == "" then 0 else (if s[0] == '\n' then 1 else 0) + Newlines(s[1..])
  }

  lemma {:induction false} NewlinesAppend(a: string, b: string)
    ensures Newlines(a + b) == Newlines(a) + Newlines(b)
  {
    if a != "" {
      assert (a + b)[0] == a[0] && (a + b)[1..] == a[1..] + b;
      NewlinesAppend(a[1..], b);
    } else {
      assert a + b == b;
    }
  }

  predicate NoNewline(s: string)
  {
    forall j :: 0 <= j < |s| ==> s[j] != '\n'
  }

  lemma {:induction false} NoNewlineCount(s: string)
    requires NoNewline(s)
    ensures Newlines(s) == 0
  {
    if s != "" {
      NoNewlineCount(s[1..]);
    }
  }

  /** With newline-free transcripts, the joined text holds exactly one newline per line. */
  lemma {:induction false} JoinLinesNewlines(lines: seq<string>)
    requires forall k :: 0 <= k < |lines| ==> NoNewline(lines[k])
    ensures Newlines(JoinLines(lines)) == |lines|
  {
    if lines != [] {
      JoinLinesNewlines(lines[1..]);
      NoNewlineCount(lines[0]);
      NewlinesAppend(lines[0], "\n");
      NewlinesAppend(lines[0] + "\n", JoinLines(lines[1..]));
    }
  }

  /** The joined text is empty exactly when there are no lines, and otherwise ends with a newline. */
  lemma {:induction false} JoinLinesShape(lines: seq<string>)
    ensures JoinLines(lines) == "" <==> lines == []
    ensures lines != [] ==> JoinLines(lines)[|JoinLines(lines)| - 1] == '\n'
  {
    if lines != [] {
      JoinLinesShape(lines[1..]);
    }
  }

  /** The position of the first newline, or the length when there is none. */
  function FirstNewline(s: string): (i: nat)
    ensures i <= |s|
    ensures i < |s| ==> s[i] == '\n'
    ensures forall j :: 0 <= j < i ==> s[j] != '\n'
  {
    if s == "" || s[0] == '\n' then 0 else 1 + FirstNewline(s[1..])
  }

  /** Cuts a text after every newline: the inverse of JoinLines. */
  function SplitLines(s: string): seq<string>
    decreases |s|
  {
    if s == "" then []
    else
      var i := FirstNewline(s);
      if i == |s| then [s] else [s[..i]] + SplitLines(s[i + 1..])
  }

  /** A transcript made of newline-free lines splits back into exactly those lines. */
  lemma {:induction false} SplitJoinLines(lines: seq<string>)
    requires forall k :: 0 <= k < |lines| ==> NoNewline(lines[k])
    ensures SplitLines(JoinLines(lines)) == lines
  {
    if lines != [] {
      var s := JoinLines(lines);
      var first := lines[0];
      assert s == first + ("\n" + JoinLines(lines[1..]));
      assert s[|first|] == '\n';
      assert FirstNewline(s) == |first|;
      assert s[..|first|] == first;
      assert s[|first| + 1..] == JoinLines(lines[1..]);
      SplitJoinLines(lines[1..]);
    }
  }

  /**
   * A transcript holds one newline per result with alternatives, and when
   * there is at least one such result it ends with a newline.
   */
  lemma TranscriptNewlines(entries: seq<Entry>)
    requires Lines(entries).Some?
    requires forall k :: 0 <= k < |Lines(entries).value| ==> NoNewline(Lines(entries).value[k])
    ensures Newlines(Transcript(entries).value) == CountWithAlternatives(entries)
    ensures CountWithAlternatives(entries) > 0 ==>
      var t := Transcript(entries).value; t != "" && t[|t| - 1] == '\n'
  {
    LinesCount(entries);
    JoinLinesNewlines(Lines(entries).value);
    JoinLinesShape(Lines(entries).value);
  }

  //----------------------------------------------------------------------
  // The classification
  //----------------------------------------------------------------------

  /** An "Error: " message, whatever the body, is never one of the two "nothing found" messages. */
  lemma HttpErrorMessage(body: string)
    ensures HTTP_ERROR_PREFIX + body != EMPTY_RESPONSE
    ensures HTTP_ERROR_PREFIX + body != NO_TRANSCRIPTION
  {
    assert (HTTP_ERROR_PREFIX + body)[1] == 'r' && EMPTY_RESPONSE[1] == 'm';
    assert (HTTP_ERROR_PREFIX + body)[0] == 'E' && NO_TRANSCRIPTION[0] == 'N';
  }

  /** "Error: " followed by the body is reported exactly when the status is not successful. */
  lemma HttpErrorOutcome(r: Response)
    ensures Classify(r) == Failure(HTTP_ERROR_PREFIX + r.body) <==> !r.successful
  {
    HttpErrorMessage(r.body);
  }

  /** The "Empty response" error is reported exactly for a successful status with `results` absent or null. */
  lemma EmptyResponseOutcome(r: Response)
    ensures Classify(r) == Failure(EMPTY_RESPONSE) <==>
      r.successful && r.json.BodyObject? && (r.json.results.ResultsAbsent? || r.json.results.ResultsNull?)
  {
    HttpErrorMessage(r.body);
  }

  /** "No transcription found." is reported exactly for a successful status with an empty `results` array. */
  lemma NoTranscriptionOutcome(r: Response)
    ensures Classify(r) == Failure(NO_TRANSCRIPTION) <==>
      r.successful && r.json == BodyObject(ResultsArray([]))
  {
    HttpErrorMessage(r.body);
    assert EMPTY_RESPONSE != NO_TRANSCRIPTION by {
      assert EMPTY_RESPONSE[0] == 'E' && NO_TRANSCRIPTION[0] == 'N';
    }
  }

  /**
   * Success exactly for a successful status with a non-empty `results`
   * array none of whose entries throws, and then the transcript is the
   * lines joined.
   */
  lemma SuccessOutcome(r: Response)
    ensures Classify(r).Success? <==>
      && r.successful && r.json.BodyObject? && r.json.results.ResultsArray?
      && |r.json.results.entries| > 0
      && forall i :: 0 <= i < |r.json.results.entries| ==> !StepOf(r.json.results.entries[i]).Throw?
    ensures Classify(r).Success? ==>
      Classify(r).transcript == JoinLines(Lines(r.json.results.entries).value)
  {
    if r.successful && r.json.BodyObject? && r.json.results.ResultsArray? {
      LinesNoneIff(r.json.results.entries);
    }
  }

  /** The exception path: a body, a `results` or an entry of a shape the accessors reject. */
  lemma ThrownOutcome(r: Response)
    ensures Classify(r) == Thrown <==>
      && r.successful
      && (|| r.json.BodyNotObject?
          || r.json.results.ResultsNotArray?
          || (r.json.results.ResultsArray?
              && exists i :: 0 <= i < |r.json.results.entries| && StepOf(r.json.results.entries[i]).Throw?))
  {
    if r.successful && r.json.BodyObject? && r.json.results.ResultsArray? {
      LinesNoneIff(r.json.results.entries);
    }
  }

  /**
   * A non-empty `results` in which no entry has alternatives is a success
   * with the empty transcript, not an error.
   */
  lemma {:induction false} NoAlternativesIsEmptySuccess(r: Response)
    requires r.successful && r.json.BodyObject? && r.json.results.ResultsArray?
    requires |r.json.results.entries| > 0
    requires forall i :: 0 <= i < |r.json.results.entries| ==> StepOf(r.json.results.entries[i]).Skip?
    ensures Classify(r) == Success("")
  {
    var entries := r.json.results.entries;
    LinesNoneIff(entries);
    LinesCount(entries);
    assert CountWithAlternatives(entries) == 0 by {
      AllSkippedCount(entries);
    }
  }

  lemma {:induction false} AllSkippedCount(entries: seq<Entry>)
    requires forall i :: 0 <= i < |entries| ==> StepOf(entries[i]).Skip?
    ensures CountWithAlternatives(entries) == 0
  {
    if entries != [] {
      AllSkippedCount(entries[..|entries| - 1]);
    }
  }
}

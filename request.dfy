/**
 * The JSON request TranscribeHelper.transcribeAudio sends to the speech
 * recognizer: a `config` object with fixed recognition settings and an
 * `audio` object carrying the recording as base64 text.
 *
 * A Gson JsonObject keeps its members in insertion order, and adding a
 * member under a key it already has replaces the value where it stands.
 * The request is built by such additions on fresh objects that nothing
 * else holds, so the model builds it as values, one addition at a time,
 * and proves that the result is the constant record the code means.
 */
module Request {
  import opened Wrappers
  import Wav
  import Capture

  /** The JSON values the request uses. */
  datatype Json =
    | JString(s: string)
    | JNumber(n: int)
    | JArray(elems: seq<Json>)
    | JObject(members: seq<Member>)

  datatype Member = Member(key: string, value: Json)

  /** The keys of an object's members, in order. */
  function Keys(members: seq<Member>): (ks: seq<string>)
    ensures |ks| == |members|
    ensures forall i :: 0 <= i < |members| ==> ks[i] == members[i].key
  {
    if members == [] then [] else [members[0].key] + Keys(members[1..])
  }

  predicate Distinct(ks: seq<string>)
  {
    forall i, j :: 0 <= i < j < |ks| ==> ks[i] != ks[j]
  }

  /** The value stored under `key`, as `JsonObject.get` finds it. */
  function Lookup(members: seq<Member>, key: string): (r: Option<Json>)
    ensures r.Some? ==> exists i :: 0 <= i < |members| && members[i] == Member(key, r.value)
    ensures r.None? <==> key !in Keys(members)
  {
    if members == [] then None
    else if members[0].key == key then Some(members[0].value)
    else
      var r := Lookup(members[1..], key);
      assert r.Some? ==> var i :| 0 <= i < |members| - 1 && members[1..][i] == Member(key, r.value);
        members[i + 1] == Member(key, r.value);
      assert Keys(members) == [members[0].key] + Keys(members[1..]);
      r
  }

  /**
   * `add(key, value)` / `addProperty(key, value)`: replaces the value of an
   * existing member in place, or appends a new member at the end.
   */
  function Put(members: seq<Member>, key: string, value: Json): (r: seq<Member>)
  {
    if members == [] then [Member(key, value)]
    else if members[0].key == key then [Member(key, value)] + members[1..]
    else [members[0]] + Put(members[1..], key, value)
  }

  /** After a put, the key holds the new value and every other key what it held before. */
  lemma {:induction false} PutLookup(members: seq<Member>, key: string, value: Json, other: string)
    ensures Lookup(Put(members, key, value), key) == Some(value)
    ensures other != key ==> Lookup(Put(members, key, value), other) == Lookup(members, other)
  {
    if members != [] && members[0].key != key {
      PutLookup(members[1..], key, value, other);
      assert Put(members, key, value)[1..] == Put(members[1..], key, value);
    }
  }

  /** A put keeps the order of the keys; a new key goes last. */
  lemma {:induction false} PutKeys(members: seq<Member>, key: string, value: Json)
    ensures Keys(Put(members, key, value)) ==
      if key in Keys(members) then Keys(members) else Keys(members) + [key]
  {
    if members != [] {
      assert Keys(members) == [members[0].key] + Keys(members[1..]);
      if members[0].key != key {
        PutKeys(members[1..], key, value);
        assert Put(members, key, value)[1..] == Put(members[1..], key, value);
        assert Keys(Put(members, key, value)) == [members[0].key] + Keys(Put(members[1..], key, value));
      }
    }
  }

  /** A put keeps every key once, the property that makes a JsonObject a map. */
  lemma PutDistinct(members: seq<Member>, key: string, value: Json)
    requires Distinct(Keys(members))
    ensures Distinct(Keys(Put(members, key, value)))
  {
    PutKeys(members, key, value);
  }

  /** Adding the same member twice is adding it once: line 41 changes nothing. */
  lemma {:induction false} PutTwice(members: seq<Member>, key: string, value: Json)
    ensures Put(Put(members, key, value), key, value) == Put(members, key, value)
  {
    if members != [] && members[0].key != key {
      PutTwice(members[1..], key, value);
    }
  }

  /** The request as lines 36-54 build it, from the base64 text of the recording. */
  function BuildRequest(audioBase64: string): Json
  {
    var config := Put([], "encoding", JString("LINEAR16"));
    var config := Put(config, "sampleRateHertz", JNumber(16000));
    var config := Put(config, "languageCode", JString("en-US"));
    var config := Put(config, "languageCode", JString("en-US"));
    var altLangs := [] + [JString("hi-IN")] + [JString("es-ES")] + [JString("fr-FR")];
    var config := Put(config, "alternativeLanguageCodes", JArray(altLangs));
    var audio := Put([], "content", JString(audioBase64));
    var request := Put([], "config", JObject(config));
    var request := Put(request, "audio", JObject(audio));
    JObject(request)
  }

  /** The recognition settings the request carries. */
  datatype RecognitionConfig = RecognitionConfig(
    encoding: string, sampleRateHertz: int, languageCode: string, alternativeLanguageCodes: seq<string>)

  /** 16-bit linear PCM at 16000 Hz, English (US) first, then Hindi, Spanish and French. */
  const CONFIG: RecognitionConfig :=
    RecognitionConfig("LINEAR16", 16000, "en-US", ["hi-IN", "es-ES", "fr-FR"])

  /** The JSON form of the settings: one member per field, in declaration order. */
  function RenderConfig(config: RecognitionConfig): (members: seq<Member>)
    ensures Keys(members) == ["encoding", "sampleRateHertz", "languageCode", "alternativeLanguageCodes"]
  {
    [ Member("encoding", JString(config.encoding)),
      Member("sampleRateHertz", JNumber(config.sampleRateHertz)),
      Member("languageCode", JString(config.languageCode)),
      Member("alternativeLanguageCodes", JArray(Strings(config.alternativeLanguageCodes))) ]
  }

  /** A JSON array of strings. */
  function Strings(ss: seq<string>): (elems: seq<Json>)
    ensures |elems| == |ss| && forall i :: 0 <= i < |ss| ==> elems[i] == JString(ss[i])
  {
    if ss == [] then [] else [JString(ss[0])] + Strings(ss[1..])
  }

  /** A request record in its JSON form: `config` then `audio`. */
  function Render(config: RecognitionConfig, audioBase64: string): (j: Json)
    ensures j.JObject? && Keys(j.members) == ["config", "audio"]
  {
    JObject([
      Member("config", JObject(RenderConfig(config))),
      Member("audio", JObject([Member("content", JString(audioBase64))]))])
  }

  /**
   * The request built step by step is the constant record with the
   * recording's text: one `languageCode` (the second addition overwrote
   * the first with the same value), the alternative languages in the order
   * added, and the audio content under `audio.content`.
   */
  lemma BuildRequestIsConfig(audioBase64: string)
    ensures BuildRequest(audioBase64) == Render(CONFIG, audioBase64)
  {
    var encoding := Member("encoding", JString("LINEAR16"));
    var rate := Member("sampleRateHertz", JNumber(16000));
    var language := Member("languageCode", JString("en-US"));
    var langs := [JString("hi-IN"), JString("es-ES"), JString("fr-FR")];
    var alternatives := Member("alternativeLanguageCodes", JArray(langs));
    var c1 := Put([], "encoding", JString("LINEAR16"));
    assert c1 == [encoding];
    PutNew(c1, "sampleRateHertz", JNumber(16000));
    var c2 := [encoding, rate];
    PutNew(c2, "languageCode", JString("en-US"));
    var c3 := [encoding, rate, language];
    PutTwice(c2, "languageCode", JString("en-US"));
    assert [] + [JString("hi-IN")] + [JString("es-ES")] + [JString("fr-FR")] == langs;
    PutNew(c3, "alternativeLanguageCodes", JArray(langs));
    assert Strings(CONFIG.alternativeLanguageCodes) == langs;
    assert RenderConfig(CONFIG) == [encoding, rate, language, alternatives];
    var config := Member("config", JObject(RenderConfig(CONFIG)));
    var audio := Member("audio", JObject([Member("content", JString(audioBase64))]));
    assert Put([], "config", JObject(RenderConfig(CONFIG))) == [config];
    PutNew([config], "audio", JObject([Member("content", JString(audioBase64))]));
    assert Put(c3, "languageCode", JString("en-US")) == c3;
    assert Put(c3, "alternativeLanguageCodes", JArray(langs)) == RenderConfig(CONFIG);
    assert Put([], "content", JString(audioBase64)) == [Member("content", JString(audioBase64))];
    assert Render(CONFIG, audioBase64) == JObject([config, audio]);
  }

  /** Adding a key the object does not have appends it. */
  lemma {:induction false} PutNew(members: seq<Member>, key: string, value: Json)
    requires key !in Keys(members)
    ensures Put(members, key, value) == members + [Member(key, value)]
  {
    if members != [] {
      assert Keys(members) == [members[0].key] + Keys(members[1..]);
      PutNew(members[1..], key, value);
      assert members == [members[0]] + members[1..];
    }
  }

  /** In an object with distinct keys, each member is what a lookup of its key finds. */
  lemma {:induction false} LookupAt(members: seq<Member>, i: nat)
    requires Distinct(Keys(members)) && i < |members|
    ensures Lookup(members, members[i].key) == Some(members[i].value)
  {
    if i > 0 {
      assert Keys(members[1..]) == Keys(members)[1..];
      assert members[1..][i - 1] == members[i];
      LookupAt(members[1..], i - 1);
    }
  }

  /** The settings' JSON has each key once, and each key gives back its field. */
  lemma RenderConfigFields(config: RecognitionConfig)
    ensures var members := RenderConfig(config);
      && Distinct(Keys(members))
      && Lookup(members, "encoding") == Some(JString(config.encoding))
      && Lookup(members, "sampleRateHertz") == Some(JNumber(config.sampleRateHertz))
      && Lookup(members, "languageCode") == Some(JString(config.languageCode))
      && Lookup(members, "alternativeLanguageCodes") == Some(JArray(Strings(config.alternativeLanguageCodes)))
  {
    var members := RenderConfig(config);
    assert Distinct(Keys(members));
    LookupAt(members, 0);
    LookupAt(members, 1);
    LookupAt(members, 2);
    LookupAt(members, 3);
  }

  /**
   * The request's settings: LINEAR16, 16000 Hz, a single `languageCode`
   * en-US, and the alternative languages hi-IN, es-ES, fr-FR in that order.
   */
  lemma ConfigFields()
    ensures var members := RenderConfig(CONFIG);
      && Distinct(Keys(members))
      && Lookup(members, "encoding") == Some(JString("LINEAR16"))
      && Lookup(members, "sampleRateHertz") == Some(JNumber(16000))
      && Lookup(members, "languageCode") == Some(JString("en-US"))
      && Lookup(members, "alternativeLanguageCodes")
         == Some(JArray([JString("hi-IN"), JString("es-ES"), JString("fr-FR")]))
  {
    RenderConfigFields(CONFIG);
    assert Strings(CONFIG.alternativeLanguageCodes) == [JString("hi-IN"), JString("es-ES"), JString("fr-FR")];
  }

  /** The request has `config` holding the settings and `audio.content` holding the recording's text. */
  lemma RequestFields(audioBase64: string)
    ensures var j := BuildRequest(audioBase64);
      && j.JObject? && Distinct(Keys(j.members))
      && Lookup(j.members, "config") == Some(JObject(RenderConfig(CONFIG)))
      && Lookup(j.members, "audio") == Some(JObject([Member("content", JString(audioBase64))]))
  {
    BuildRequestIsConfig(audioBase64);
    var members := Render(CONFIG, audioBase64).members;
    assert Distinct(Keys(members));
    LookupAt(members, 0);
    LookupAt(members, 1);
  }

  /**
   * The settings describe every recording the app makes: the sample rate is
   * the recorder's and the one a reader finds in the WAV header, and
   * LINEAR16 is the header's format, linear PCM at 16 bits per sample.
   */
  lemma ConfigMatchesRecording(pcm: seq<Wav.byte>)
    requires |pcm| < 0x8000_0000
    ensures CONFIG.sampleRateHertz == Capture.SAMPLE_RATE
    ensures var p := Wav.ParseHeader(Capture.WavFile(pcm)[..Wav.HEADER_SIZE]);
      && p.Some?
      && p.value.fmt.sampleRate == CONFIG.sampleRateHertz
      && CONFIG.encoding == "LINEAR16" && p.value.fmt.formatTag == 1 && p.value.fmt.bitsPerSample == 16
  {
    Capture.RecordedFile(pcm);
  }
}

/**
 * What the two synthesis front ends (`PureKokoroTTS` and `KokoroTTS`) have in common: the
 * voice registry check, the choice of the style vector by token count, the preparation of a
 * streaming request's input, and the value types both produce.
 */
module KokoroShared {
  import opened Outcomes
  import opened JsStrings

  /** Width of one style vector in a voice's style table. */
  const STYLE_DIM: nat := 256
  /** Sample rate of every synthesized waveform, in Hz. */
  const SAMPLE_RATE: nat := 24000
  /** Largest row of a style table; longer utterances reuse this row. */
  const MAX_STYLE_INDEX: nat := 509
  /** Voice used when a request names none. */
  const DEFAULT_VOICE: string := "af_heart"
  /** Speed used when a request names none. */
  const DEFAULT_SPEED: real := 1.0

  /** A registered voice identifier such as `af_heart`; its first letter is its language. */
  type VoiceId = s: string | |s| > 0 witness "a"

  /** One PCM sample, already quantised to a signed 16-bit value. */
  newtype int16 = x: int | -0x8000 <= x < 0x8000

  /** A waveform with its sample rate. */
  datatype Audio = Audio(data: seq<int16>, sampleRate: nat)

  /** The named inputs of one inference call: `input_ids`, `style` and `speed`. */
  datatype Feeds = Feeds(inputIds: seq<int>, style: seq<real>, speed: real)

  /** The errors the front ends throw. */
  datatype TtsError =
    | UnknownVoice(voice: string, available: seq<VoiceId>)
    | ModelNotLoaded
    | TokenizerNotLoaded
    | VoiceDataUnavailable(reason: string)
    | NoWaveformOutput
    | WaveformUndefined
    | InvalidInputType
    | LoadFailure(reason: string)
    | BackendFailure(reason: string)   // a rejected inference call or session release

  /** The `message` of each error, as the worker forwards it. */
  function ErrorMessage(e: TtsError): string {
    match e
    case UnknownVoice(voice, available) => UnknownVoiceMessage(voice, available)
    case ModelNotLoaded => "Model not loaded. Call load() first."
    case TokenizerNotLoaded => "Tokenizer not loaded"
    case VoiceDataUnavailable(reason) => reason
    case NoWaveformOutput => "No waveform output found"
    case WaveformUndefined => "Cannot read properties of undefined (reading 'data')"  // V8's wording
    case InvalidInputType => "Invalid input type. Expected string or TextSplitterStream."
    case LoadFailure(reason) => reason
    case BackendFailure(reason) => reason
  }

  const UNKNOWN_VOICE_OPEN: string := "Voice \""
  const UNKNOWN_VOICE_MIDDLE: string := "\" not found. Should be one of: "

  function UnknownVoiceMessage(voice: string, available: seq<VoiceId>): string {
    UNKNOWN_VOICE_OPEN + voice + UNKNOWN_VOICE_MIDDLE + Join(available, ", ") + "."
  }

  // ---------------------------------------------------------------------------
  // voice validation
  // ---------------------------------------------------------------------------

  /** `_validate_voice`: a registered voice gives its first character (the language tag);
      any other string fails with an error that carries the whole registry. */
  function ValidateVoice(registry: seq<VoiceId>, voice: string): (r: Result<char, TtsError>)
    ensures r.Ok? <==> voice in registry
    ensures r.Ok? ==> |voice| > 0 && r.value == voice[0]
    ensures r.Err? ==> r.error == UnknownVoice(voice, registry)
  {
    if voice in registry then Ok(voice[0]) else Err(UnknownVoice(voice, registry))
  }

  /** The message of a rejected voice names every registered voice. */
  lemma UnknownVoiceNamesEvery(voice: string, registry: seq<VoiceId>, i: nat)
    requires voice !in registry
    requires i < |registry|
    ensures ValidateVoice(registry, voice).Err?
    ensures OccursAt(registry[i], ErrorMessage(ValidateVoice(registry, voice).error),
                     |UNKNOWN_VOICE_OPEN| + |voice| + |UNKNOWN_VOICE_MIDDLE| + JoinOffset(registry, ", ", i))
  {
    JoinMentionsEvery(registry, ", ", i);
    OccursAtWithin(registry[i], Join(registry, ", "), JoinOffset(registry, ", ", i),
                   UNKNOWN_VOICE_OPEN + voice + UNKNOWN_VOICE_MIDDLE, ".");
  }

  // ---------------------------------------------------------------------------
  // style selection
  // ---------------------------------------------------------------------------

  function Max(a: int, b: int): int { if a >= b then a else b }
  function Min(a: int, b: int): int { if a <= b then a else b }

  /** `Math.min(Math.max(tokenCount - 2, 0), 509)`: the token count without the two sentinel
      ids, clamped to the rows of a style table. */
  function NumTokens(tokenCount: int): (n: nat)
    ensures n <= MAX_STYLE_INDEX
    ensures tokenCount <= 2 ==> n == 0
    ensures 2 <= tokenCount <= MAX_STYLE_INDEX + 2 ==> n == tokenCount - 2
    ensures tokenCount >= MAX_STYLE_INDEX + 2 ==> n == MAX_STYLE_INDEX
  {
    Min(Max(tokenCount - 2, 0), MAX_STYLE_INDEX)
  }

  /** `offset = numTokens * STYLE_DIM`. */
  function StyleOffset(tokenCount: int): (offset: nat)
    ensures offset % STYLE_DIM == 0
    ensures offset <= MAX_STYLE_INDEX * STYLE_DIM
  {
    NumTokens(tokenCount) * STYLE_DIM
  }

  /** `Float32Array.prototype.slice(start, end)` for non-negative bounds: both bounds are
      clamped to the length, and a reversed range is empty. */
  function TypedSlice<T>(s: seq<T>, start: nat, end: nat): (r: seq<T>)
    ensures |r| == Max(0, Min(end, |s|) - Min(start, |s|))
    ensures forall i :: 0 <= i < |r| ==> start + i < |s| && r[i] == s[start + i]
    ensures start <= end <= |s| ==> r == s[start..end]
  {
    var a := Min(start, |s|);
    var b := Min(end, |s|);
    if a < b then s[a..b] else []
  }

  /** The style vector for an utterance of `tokenCount` ids: the 256-wide window of the table
      starting at `StyleOffset(tokenCount)`, cut short where the table ends. */
  function SelectStyle<T>(table: seq<T>, tokenCount: int): (style: seq<T>)
    ensures |style| <= STYLE_DIM
    ensures forall i :: 0 <= i < |style| ==>
              StyleOffset(tokenCount) + i < |table| && style[i] == table[StyleOffset(tokenCount) + i]
    ensures StyleOffset(tokenCount) + STYLE_DIM <= |table| ==>
              style == table[StyleOffset(tokenCount)..StyleOffset(tokenCount) + STYLE_DIM]
    ensures |style| == Max(0, Min(STYLE_DIM, |table| - StyleOffset(tokenCount)))
  {
    var offset := StyleOffset(tokenCount);
    TypedSlice(table, offset, offset + STYLE_DIM)
  }

  /** A complete table (one row per clamped token count, rows 0 to 509) always yields a full
      256-wide style vector, whatever the utterance length. */
  lemma FullTableGivesFullStyle<T>(table: seq<T>, tokenCount: int)
    requires |table| == (MAX_STYLE_INDEX + 1) * STYLE_DIM
    ensures |SelectStyle(table, tokenCount)| == STYLE_DIM
    ensures SelectStyle(table, tokenCount)
         == table[NumTokens(tokenCount) * STYLE_DIM .. NumTokens(tokenCount) * STYLE_DIM + STYLE_DIM]
  {
  }

  // ---------------------------------------------------------------------------
  // streaming input
  // ---------------------------------------------------------------------------

  /** The observable state of a `TextSplitterStream`: the text pushed so far and whether
      `close()` was called. How it cuts the text into sentences is not part of this model. */
  datatype TextSplitter = TextSplitter(pushed: seq<string>, closed: bool)

  /** `text.split(pattern)` for one regular expression. */
  type RegexSplit = string -> seq<string>

  /** What `stream` is given: a string, a splitter, or some other value. */
  datatype StreamInput = TextInput(text: string) | SplitterInput(splitter: TextSplitter) | OtherInput

  /** What one step of a stream yields. */
  datatype StreamItem = StreamItem(text: string, phonemes: string, audio: Audio)

  /** How a stream's iteration ends: drained, waiting forever on an open splitter, or thrown. */
  datatype StreamEnd = Finished | Suspended | Failed(error: TtsError)

  /** The items yielded for a list of sentences, in order, up to the first sentence whose
      generation throws, and that error. */
  datatype Yielded = Yielded(items: seq<StreamItem>, failure: Option<TtsError>)

  /** Everything one iteration of a stream produces. */
  datatype StreamRun = StreamRun(items: seq<StreamItem>, end: StreamEnd)

  /** The collaborators both front ends call and that are not part of this model. */
  datatype Collaborators = Collaborators(
    registry: seq<VoiceId>,                            // Object.keys(VOICES), in order
    phonemize: (string, char) -> string,               // phonemize(text, language)
    voiceData: string -> Result<seq<real>, string>,    // getVoiceData(voice), or its error message
    segments: TextSplitter -> seq<string>)             // the sentences the splitter yields

  /** `.map((chunk) => chunk.trim())`. */
  function TrimAll(pieces: seq<string>): (trimmed: seq<string>)
    ensures |trimmed| == |pieces|
    ensures forall i :: 0 <= i < |pieces| ==> trimmed[i] == Trim(pieces[i])
    decreases |pieces|
  {
    if pieces == [] then [] else [Trim(pieces[0])] + TrimAll(pieces[1..])
  }

  /** The trimmed, non-empty pieces, in order. */
  function ChunksOf(pieces: seq<string>): seq<string> {
    NonEmpty(TrimAll(pieces))
  }

  /** The chunks a string is turned into before being pushed into a fresh splitter: with a
      split pattern the trimmed non-empty pieces, without one the text itself, untouched. */
  function StringChunks(text: string, splitPattern: Option<RegexSplit>): (chunks: seq<string>)
    ensures splitPattern.None? ==> chunks == [text]
    ensures splitPattern.Some? ==> chunks == ChunksOf(splitPattern.value(text))
    ensures splitPattern.Some? ==>
              forall i :: 0 <= i < |chunks| ==> |chunks[i]| > 0 && Trim(chunks[i]) == chunks[i]
  {
    match splitPattern
    case None => [text]
    case Some(split) =>
      var chunks := ChunksOf(split(text));
      assert forall i :: 0 <= i < |chunks| ==> Trim(chunks[i]) == chunks[i] by {
        forall i | 0 <= i < |chunks| ensures Trim(chunks[i]) == chunks[i] {
          assert chunks[i] in TrimAll(split(text));
          var k :| 0 <= k < |split(text)| && TrimAll(split(text))[k] == chunks[i];
          TrimIdempotent(split(text)[k]);
        }
      }
      chunks
  }

  /** The chunking of pieces distributes over concatenation, so the chunks keep the order of
      the pieces they come from; with `ChunksOfSingle` this fixes the chunks completely. */
  lemma {:induction false} ChunksOfAppend(a: seq<string>, b: seq<string>)
    ensures ChunksOf(a + b) == ChunksOf(a) + ChunksOf(b)
  {
    TrimAllAppend(a, b);
    NonEmptyAppend(TrimAll(a), TrimAll(b));
  }

  lemma ChunksOfSingle(piece: string)
    ensures ChunksOf([piece]) == if Trim(piece) == "" then [] else [Trim(piece)]
  {
    assert TrimAll([piece]) == [Trim(piece)];
  }

  lemma TrimAllAppend(a: seq<string>, b: seq<string>)
    ensures TrimAll(a + b) == TrimAll(a) + TrimAll(b)
  {
    forall i | 0 <= i < |a| + |b|
      ensures TrimAll(a + b)[i] == (TrimAll(a) + TrimAll(b))[i]
    {
      if i < |a| {
        assert (a + b)[i] == a[i];
      } else {
        assert (a + b)[i] == b[i - |a|];
      }
    }
  }

  /** The splitter a stream iterates: the one it was given, or a fresh one holding the string's
      chunks, which the string path never closes. */
  function SplitterFor(input: StreamInput, splitPattern: Option<RegexSplit>): (r: Result<TextSplitter, TtsError>)
    ensures input.OtherInput? <==> r == Err(InvalidInputType)
    ensures input.SplitterInput? ==> r == Ok(input.splitter)
    ensures input.TextInput? ==> r.Ok? && !r.value.closed && r.value.pushed == StringChunks(input.text, splitPattern)
  {
    match input
    case SplitterInput(splitter) => Ok(splitter)
    case TextInput(text) => Ok(TextSplitter(StringChunks(text, splitPattern), false))
    case OtherInput => Err(InvalidInputType)
  }

  /** The start of `stream`: the voice is validated first, then the input is dispatched. */
  function PrepareStream(registry: seq<VoiceId>, voice: string, input: StreamInput,
                         splitPattern: Option<RegexSplit>): (r: Result<(char, TextSplitter), TtsError>)
    ensures voice !in registry ==> r == Err(UnknownVoice(voice, registry))
    ensures voice in registry && input.OtherInput? ==> r == Err(InvalidInputType)
    ensures voice in registry && !input.OtherInput? ==> r.Ok?
    ensures r.Ok? ==> voice in registry && r.value.0 == voice[0]
                      && SplitterFor(input, splitPattern) == Ok(r.value.1)
  {
    var language :- ValidateVoice(registry, voice);
    var splitter :- SplitterFor(input, splitPattern);
    Ok((language, splitter))
  }
}

/**
 * `KokoroTTS`: the front end that runs the model through the transformers library. Its
 * model and tokenizer are fixed at construction, so the object is a value here; the
 * tokenizer and the model are the library's and are parameters of the model.
 */
module Kokoro {
  import opened Outcomes
  import opened KokoroShared

  /** `this.tokenizer(phonemes, {truncation: true}).input_ids`, flattened to its last axis. */
  type Tokenizer = string -> seq<int>

  /** `await this.model(inputs)`: the `waveform.data` of its result, None when the result has
      no `waveform`, or the message the call rejects with. */
  type Model = Feeds -> Result<Option<seq<int16>>, string>

  datatype KokoroTts = KokoroTts(tokenizer: Tokenizer, model: Model)

  /** `generate_from_ids(input_ids, {voice, speed})`: the style row is chosen by the token
      count and no voice check is made; a rejected model call throws its error and a missing
      `waveform` output throws a TypeError. */
  function GenerateFromIds(tts: KokoroTts, env: Collaborators, ids: seq<int>, voice: string, speed: real)
    : (r: Result<Audio, TtsError>)
    ensures env.voiceData(voice).Err? ==> r == Err(VoiceDataUnavailable(env.voiceData(voice).error))
    ensures env.voiceData(voice).Ok? ==>
              var result := tts.model(Feeds(ids, SelectStyle(env.voiceData(voice).value, |ids|), speed));
              && (result.Err? ==> r == Err(BackendFailure(result.error)))
              && (result == Ok(None) ==> r == Err(WaveformUndefined))
              && (r.Ok? <==> result.Ok? && result.value.Some?)
              && (r.Ok? ==> r.value == Audio(result.value.value, SAMPLE_RATE))
  {
    var numTokens := NumTokens(|ids|);
    match env.voiceData(voice)
    case Err(reason) => Err(VoiceDataUnavailable(reason))
    case Ok(data) =>
      var offset := numTokens * STYLE_DIM;
      var style := TypedSlice(data, offset, offset + STYLE_DIM);
      match tts.model(Feeds(ids, style, speed))
      case Err(reason) => Err(BackendFailure(reason))
      case Ok(None) => Err(WaveformUndefined)
      case Ok(Some(waveform)) => Ok(Audio(waveform, SAMPLE_RATE))
  }

  /** With a complete voice table, the model is given row `NumTokens(|ids|)` of it, all 256
      values, as its style. */
  lemma GenerateFromIdsUsesRow(tts: KokoroTts, env: Collaborators, ids: seq<int>, voice: string, speed: real)
    requires env.voiceData(voice).Ok?
    requires |env.voiceData(voice).value| == (MAX_STYLE_INDEX + 1) * STYLE_DIM
    ensures var table := env.voiceData(voice).value;
            var row := NumTokens(|ids|);
            GenerateFromIds(tts, env, ids, voice, speed)
            == match tts.model(Feeds(ids, table[row * STYLE_DIM..row * STYLE_DIM + STYLE_DIM], speed))
               case Err(reason) => Err(BackendFailure(reason))
               case Ok(None) => Err(WaveformUndefined)
               case Ok(Some(waveform)) => Ok(Audio(waveform, SAMPLE_RATE))
  {
    FullTableGivesFullStyle(env.voiceData(voice).value, |ids|);
  }

  /** The audio of one sentence: phonemize it, tokenize the phonemes, generate from the ids. */
  function SentenceAudio(tts: KokoroTts, env: Collaborators, sentence: string, language: char, voice: string,
                         speed: real): Result<Audio, TtsError>
  {
    GenerateFromIds(tts, env, tts.tokenizer(env.phonemize(sentence, language)), voice, speed)
  }

  /** `generate(text, {voice, speed})`, with the defaults "af_heart" and 1. */
  function Generate(tts: KokoroTts, env: Collaborators, text: string, voice: Option<string>, speed: Option<real>)
    : (r: Result<Audio, TtsError>)
    ensures var v := voice.GetOr(DEFAULT_VOICE);
            && (v !in env.registry ==> r == Err(UnknownVoice(v, env.registry)))
            && (v in env.registry ==> r == SentenceAudio(tts, env, text, v[0], v, speed.GetOr(DEFAULT_SPEED)))
  {
    var v := voice.GetOr(DEFAULT_VOICE);
    var language :- ValidateVoice(env.registry, v);
    var phonemes := env.phonemize(text, language);
    var ids := tts.tokenizer(phonemes);
    GenerateFromIds(tts, env, ids, v, speed.GetOr(DEFAULT_SPEED))
  }

  /** The voice is checked before anything else is called: for an unregistered voice the
      result does not depend on the tokenizer, the model, the phonemizer or the voice data. */
  lemma GenerateValidatesVoiceFirst(tts1: KokoroTts, tts2: KokoroTts, env1: Collaborators, env2: Collaborators,
                                    text1: string, text2: string, voice: Option<string>,
                                    speed1: Option<real>, speed2: Option<real>)
    requires env1.registry == env2.registry
    requires voice.GetOr(DEFAULT_VOICE) !in env1.registry
    ensures Generate(tts1, env1, text1, voice, speed1) == Generate(tts2, env2, text2, voice, speed2)
    ensures Generate(tts1, env1, text1, voice, speed1).Err?
  {
  }

  // ---------------------------------------------------------------------------
  // streaming
  // ---------------------------------------------------------------------------

  function Yields(tts: KokoroTts, env: Collaborators, sentences: seq<string>, language: char, voice: string,
                  speed: real): Yielded
    decreases |sentences|
  {
    if sentences == [] then Yielded([], None)
    else
      match SentenceAudio(tts, env, sentences[0], language, voice, speed)
      case Err(e) => Yielded([], Some(e))
      case Ok(audio) =>
        var rest := Yields(tts, env, sentences[1..], language, voice, speed);
        Yielded([StreamItem(sentences[0], env.phonemize(sentences[0], language), audio)] + rest.items, rest.failure)
  }

  /** The items are the first sentences, in order, each with its phonemes and its audio;
      either every sentence was generated, or the first sentence without an item is the one
      whose generation failed, with that failure. */
  lemma {:induction false} YieldsShape(tts: KokoroTts, env: Collaborators, sentences: seq<string>, language: char,
                                       voice: string, speed: real)
    ensures var r := Yields(tts, env, sentences, language, voice, speed);
            && |r.items| <= |sentences|
            && (forall i :: 0 <= i < |r.items| ==>
                  && r.items[i].text == sentences[i]
                  && r.items[i].phonemes == env.phonemize(sentences[i], language)
                  && SentenceAudio(tts, env, sentences[i], language, voice, speed) == Ok(r.items[i].audio))
            && (r.failure.None? ==> |r.items| == |sentences|)
            && (r.failure.Some? ==>
                  && |r.items| < |sentences|
                  && SentenceAudio(tts, env, sentences[|r.items|], language, voice, speed) == Err(r.failure.value))
    decreases |sentences|
  {
    if sentences != [] {
      var g := SentenceAudio(tts, env, sentences[0], language, voice, speed);
      if g.Ok? {
        var r := Yields(tts, env, sentences, language, voice, speed);
        var rest := Yields(tts, env, sentences[1..], language, voice, speed);
        YieldsShape(tts, env, sentences[1..], language, voice, speed);
        assert r.items == [StreamItem(sentences[0], env.phonemize(sentences[0], language), g.value)] + rest.items;
        assert r.failure == rest.failure;
        forall i | 1 <= i < |r.items|
          ensures r.items[i] == rest.items[i - 1] && sentences[i] == sentences[1..][i - 1]
        {
        }
      }
    }
  }

  /** The loop of `stream` after `i` sentences: `all` is what the whole loop yields and `items`
      what the first `i` sentences yielded; sentence `i` either ends the loop with its error
      or extends `items` by its item. */
  lemma YieldsStep(tts: KokoroTts, env: Collaborators, sentences: seq<string>, i: nat, language: char,
                   voice: string, speed: real, all: Yielded, items: seq<StreamItem>)
    requires i < |sentences|
    requires var rest := Yields(tts, env, sentences[i..], language, voice, speed);
             all == Yielded(items + rest.items, rest.failure)
    ensures var g := SentenceAudio(tts, env, sentences[i], language, voice, speed);
            && (g.Err? ==> all == Yielded(items, Some(g.error)))
            && (g.Ok? ==>
                  var rest := Yields(tts, env, sentences[i + 1..], language, voice, speed);
                  all == Yielded(items + [StreamItem(sentences[i], env.phonemize(sentences[i], language), g.value)]
                                 + rest.items, rest.failure))
  {
    assert sentences[i..][0] == sentences[i];
    assert sentences[i..][1..] == sentences[i + 1..];
    var g := SentenceAudio(tts, env, sentences[i], language, voice, speed);
    if g.Ok? {
      var item := StreamItem(sentences[i], env.phonemize(sentences[i], language), g.value);
      var rest := Yields(tts, env, sentences[i + 1..], language, voice, speed);
      assert items + ([item] + rest.items) == items + [item] + rest.items;
    }
  }

  /** What a whole `stream(input, {voice, speed, split_pattern})` iteration yields and how it ends. */
  function StreamSpec(tts: KokoroTts, env: Collaborators, input: StreamInput, voice: Option<string>,
                      speed: Option<real>, splitPattern: Option<RegexSplit>): StreamRun
  {
    var v := voice.GetOr(DEFAULT_VOICE);
    match PrepareStream(env.registry, v, input, splitPattern)
    case Err(e) => StreamRun([], Failed(e))
    case Ok((language, splitter)) =>
      var y := Yields(tts, env, env.segments(splitter), language, v, speed.GetOr(DEFAULT_SPEED));
      StreamRun(y.items,
                if y.failure.Some? then Failed(y.failure.value)
                else if splitter.closed then Finished else Suspended)
  }

  /** `stream(input, {voice, speed, split_pattern})`: the items in yield order and how the
      iteration ends. */
  method Stream(tts: KokoroTts, env: Collaborators, input: StreamInput, voice: Option<string>,
                speed: Option<real>, splitPattern: Option<RegexSplit>)
    returns (items: seq<StreamItem>, end: StreamEnd)
    ensures StreamRun(items, end) == StreamSpec(tts, env, input, voice, speed, splitPattern)
  {
    var v := voice.GetOr(DEFAULT_VOICE);
    var prepared := PrepareStream(env.registry, v, input, splitPattern);
    if prepared.Err? {
      return [], Failed(prepared.error);
    }
    var language, splitter := prepared.value.0, prepared.value.1;
    var failure;
    items, failure := GenerateEach(tts, env, env.segments(splitter), language, v, speed.GetOr(DEFAULT_SPEED));
    end := if failure.Some? then Failed(failure.value) else if splitter.closed then Finished else Suspended;
  }

  /** The `for await (const sentence of splitter)` loop of `stream`: phonemizes, tokenizes and
      generates each sentence in turn, and stops at the first one whose generation throws. */
  method GenerateEach(tts: KokoroTts, env: Collaborators, sentences: seq<string>, language: char, voice: string,
                      speed: real)
    returns (items: seq<StreamItem>, failure: Option<TtsError>)
    ensures Yielded(items, failure) == Yields(tts, env, sentences, language, voice, speed)
  {
    ghost var all := Yields(tts, env, sentences, language, voice, speed);
    items := [];
    var i := 0;
    assert sentences[i..] == sentences;
    while i < |sentences|
      invariant 0 <= i <= |sentences|
      invariant var rest := Yields(tts, env, sentences[i..], language, voice, speed);
                all == Yielded(items + rest.items, rest.failure)
    {
      var sentence := sentences[i];
      var phonemes := env.phonemize(sentence, language);
      var ids := tts.tokenizer(phonemes);
      var audio := GenerateFromIds(tts, env, ids, voice, speed);
      YieldsStep(tts, env, sentences, i, language, voice, speed, all, items);
      if audio.Err? {
        return items, Some(audio.error);
      }
      items := items + [StreamItem(sentence, phonemes, audio.value)];
      i := i + 1;
    }
    assert sentences[i..] == [];
    failure := None;
  }

  /** A voice outside the registry stops the stream before its input is looked at. */
  lemma StreamValidatesVoiceFirst(tts: KokoroTts, env: Collaborators, input: StreamInput, voice: Option<string>,
                                  speed: Option<real>, splitPattern: Option<RegexSplit>)
    requires voice.GetOr(DEFAULT_VOICE) !in env.registry
    ensures StreamSpec(tts, env, input, voice, speed, splitPattern)
         == StreamRun([], Failed(UnknownVoice(voice.GetOr(DEFAULT_VOICE), env.registry)))
  {
  }

  /** An input that is neither a string nor a splitter throws "Invalid input type" once the voice
      has been accepted. */
  lemma StreamRejectsOtherInput(tts: KokoroTts, env: Collaborators, voice: Option<string>, speed: Option<real>,
                                splitPattern: Option<RegexSplit>)
    requires voice.GetOr(DEFAULT_VOICE) in env.registry
    ensures StreamSpec(tts, env, OtherInput, voice, speed, splitPattern) == StreamRun([], Failed(InvalidInputType))
  {
  }

  /** One item per sentence, in splitter order, each carrying its sentence as `text` and its
      phonemes; the stream ends early exactly when the first sentence without an item fails. */
  lemma StreamYieldsSentencesInOrder(tts: KokoroTts, env: Collaborators, splitter: TextSplitter, voice: string,
                                     speed: real)
    requires voice in env.registry
    ensures var out := StreamSpec(tts, env, SplitterInput(splitter), Some(voice), Some(speed), None);
            var sentences := env.segments(splitter);
            && |out.items| <= |sentences|
            && (forall i :: 0 <= i < |out.items| ==>
                  out.items[i].text == sentences[i] && out.items[i].phonemes == env.phonemize(sentences[i], voice[0]))
            && (!out.end.Failed? ==> |out.items| == |sentences|)
            && (out.end.Failed? ==>
                  && |out.items| < |sentences|
                  && SentenceAudio(tts, env, sentences[|out.items|], voice[0], voice, speed) == Err(out.end.error))
  {
    YieldsShape(tts, env, env.segments(splitter), voice[0], voice, speed);
  }
}

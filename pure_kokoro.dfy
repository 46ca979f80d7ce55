/**
 * `PureKokoroTTS`: the front end that runs the model through an inference session of its own.
 * Its two fields, `session` and `tokenizer`, are set by `load` and `session` is cleared by
 * `dispose`; `generate` needs a session, `tokenize` needs a tokenizer.
 */
module PureKokoro {
  import opened Outcomes
  import opened KokoroShared

  /** The `model.vocab` table of `tokenizer.json`: symbol to token id. */
  type Vocab = map<string, int>

  /** The parsed `tokenizer.json`; only `model.vocab`, absent or present, is read. */
  datatype TokenizerJson = TokenizerJson(vocab: Option<Vocab>)

  /** A session created by the inference runtime; only its identity matters here. */
  datatype Session = Session(handle: nat)

  /** `session.run(feeds)`: the named output tensors of one inference call, or the message
      the call rejects with. */
  type Inference = (Session, Feeds) -> Result<map<string, seq<int16>>, string>

  /** `session.release()`: None when it resolves, or the message it rejects with. */
  type Release = Session -> Option<string>

  /** The outcome of one loading step. */
  datatype Step<T> = Loaded(value: T) | Threw(message: string)

  /** What `load` fetches and creates, each step succeeding or throwing. */
  datatype ModelAssets = ModelAssets(
    config: Step<()>,                              // config.json, fetched and parsed
    tokenizer: Step<Option<TokenizerJson>>,        // tokenizer.json; None for a falsy JSON value
    createSession: seq<string> -> Step<Session>)   // InferenceSession.create with these providers

  /** The execution providers `load` uses when none are given. */
  const DEFAULT_PROVIDERS: seq<string> := ["wasm"]

  // ---------------------------------------------------------------------------
  // tokenization
  // ---------------------------------------------------------------------------

  /** `vocab[key] || fallback`: a missing entry and an entry of 0 both give the fallback. */
  function LookupOr(vocab: Vocab, key: string, fallback: int): int {
    if key in vocab && vocab[key] != 0 then vocab[key] else fallback
  }

  /** `this.tokenizer.model?.vocab || {}`. */
  function VocabOf(t: TokenizerJson): Vocab {
    t.vocab.GetOr(map[])
  }

  /** The beginning-of-sequence id: the vocabulary's `<s>`, or 1. Never 0. */
  function BosId(vocab: Vocab): (id: int)
    ensures id != 0
    ensures "<s>" !in vocab || vocab["<s>"] == 0 ==> id == 1
  {
    LookupOr(vocab, "<s>", 1)
  }

  /** The end-of-sequence id: the vocabulary's `</s>`, or 2. Never 0. */
  function EosId(vocab: Vocab): (id: int)
    ensures id != 0
    ensures "</s>" !in vocab || vocab["</s>"] == 0 ==> id == 2
  {
    LookupOr(vocab, "</s>", 2)
  }

  /** The unknown-symbol id: the vocabulary's `<unk>`, or 0. */
  function UnkId(vocab: Vocab): int {
    LookupOr(vocab, "<unk>", 0)
  }

  /** The id of one phoneme symbol, or the unknown-symbol id. */
  function SymbolId(vocab: Vocab, symbol: char): int {
    LookupOr(vocab, [symbol], UnkId(vocab))
  }

  /** The ids `tokenize` produces for a phoneme string. */
  function TokenIds(vocab: Vocab, phonemes: string): seq<int> {
    [BosId(vocab)]
    + seq(|phonemes|, i requires 0 <= i < |phonemes| => SymbolId(vocab, phonemes[i]))
    + [EosId(vocab)]
  }

  /** A symbol the vocabulary knows by a non-zero id. */
  predicate Known(vocab: Vocab, symbol: char) {
    [symbol] in vocab && vocab[[symbol]] != 0
  }

  /** Tokenization loses nothing for known symbols: when the vocabulary gives distinct symbols
      distinct ids, equal id sequences come from equal phoneme strings. */
  lemma TokenIdsInjective(vocab: Vocab, p: string, q: string)
    requires forall i :: 0 <= i < |p| ==> Known(vocab, p[i])
    requires forall i :: 0 <= i < |q| ==> Known(vocab, q[i])
    requires forall a: char, b: char :: Known(vocab, a) && Known(vocab, b) && vocab[[a]] == vocab[[b]] ==> a == b
    requires TokenIds(vocab, p) == TokenIds(vocab, q)
    ensures p == q
  {
    var ids := TokenIds(vocab, p);
    assert |p| == |q| by { assert |ids| == |p| + 2 == |q| + 2; }
    forall i | 0 <= i < |p| ensures p[i] == q[i] {
      assert ids[i + 1] == SymbolId(vocab, p[i]);
      assert TokenIds(vocab, q)[i + 1] == SymbolId(vocab, q[i]);
    }
  }

  /** The style row chosen for a tokenized utterance is its phoneme count, capped at 509. */
  lemma StyleRowIsPhonemeCount(vocab: Vocab, phonemes: string)
    ensures NumTokens(|TokenIds(vocab, phonemes)|) == Min(|phonemes|, MAX_STYLE_INDEX)
  {
  }

  // ---------------------------------------------------------------------------
  // generation as a function of the state
  // ---------------------------------------------------------------------------

  /** What `generate(text, {voice, speed})` returns in a state with the given `session` and
      `tokenizer`: the session is checked first, then the voice, then the tokenizer, then the
      voice data, then the inference call, and last the presence of a `waveform` output. */
  function GenerateSpec(session: Option<Session>, tokenizer: Option<TokenizerJson>, env: Collaborators,
                        run: Inference, text: string, voice: string, speed: real): (r: Result<Audio, TtsError>)
    ensures session.None? ==> r == Err(ModelNotLoaded)
    ensures session.Some? && voice !in env.registry ==> r == Err(UnknownVoice(voice, env.registry))
    ensures session.Some? && voice in env.registry && tokenizer.None? ==> r == Err(TokenizerNotLoaded)
    ensures session.Some? && voice in env.registry && tokenizer.Some? && env.voiceData(voice).Err? ==>
              r == Err(VoiceDataUnavailable(env.voiceData(voice).error))
    ensures session.Some? && voice in env.registry && tokenizer.Some? && env.voiceData(voice).Ok? ==>
              var ids := TokenIds(VocabOf(tokenizer.value), env.phonemize(text, voice[0]));
              var outputs := run(session.value, Feeds(ids, SelectStyle(env.voiceData(voice).value, |ids|), speed));
              && (outputs.Err? ==> r == Err(BackendFailure(outputs.error)))
              && (outputs.Ok? && "waveform" !in outputs.value ==> r == Err(NoWaveformOutput))
              && (outputs.Ok? && "waveform" in outputs.value ==>
                    r == Ok(Audio(outputs.value["waveform"], SAMPLE_RATE)))
  {
    if session.None? then Err(ModelNotLoaded)
    else
      match ValidateVoice(env.registry, voice)
      case Err(e) => Err(e)
      case Ok(language) =>
        var phonemes := env.phonemize(text, language);
        if tokenizer.None? then Err(TokenizerNotLoaded)
        else
          var ids := TokenIds(VocabOf(tokenizer.value), phonemes);
          match env.voiceData(voice)
          case Err(reason) => Err(VoiceDataUnavailable(reason))
          case Ok(table) =>
            match run(session.value, Feeds(ids, SelectStyle(table, |ids|), speed))
            case Err(reason) => Err(BackendFailure(reason))
            case Ok(outputs) =>
              if "waveform" !in outputs then Err(NoWaveformOutput)
              else Ok(Audio(outputs["waveform"], SAMPLE_RATE))
  }

  function Yields(session: Option<Session>, tokenizer: Option<TokenizerJson>, env: Collaborators, run: Inference,
                  sentences: seq<string>, language: char, voice: string, speed: real): Yielded
    decreases |sentences|
  {
    if sentences == [] then Yielded([], None)
    else
      match GenerateSpec(session, tokenizer, env, run, sentences[0], voice, speed)
      case Err(e) => Yielded([], Some(e))
      case Ok(audio) =>
        var rest := Yields(session, tokenizer, env, run, sentences[1..], language, voice, speed);
        Yielded([StreamItem(sentences[0], env.phonemize(sentences[0], language), audio)] + rest.items, rest.failure)
  }

  /** The items are the first sentences, in order, each with its phonemes and its generated
      audio; either every sentence was generated, or the first sentence without an item is
      the one whose generation failed, with that failure. */
  lemma {:induction false} YieldsShape(session: Option<Session>, tokenizer: Option<TokenizerJson>, env: Collaborators,
                                       run: Inference, sentences: seq<string>, language: char, voice: string, speed: real)
    ensures var r := Yields(session, tokenizer, env, run, sentences, language, voice, speed);
            && |r.items| <= |sentences|
            && (forall i :: 0 <= i < |r.items| ==>
                  && r.items[i].text == sentences[i]
                  && r.items[i].phonemes == env.phonemize(sentences[i], language)
                  && GenerateSpec(session, tokenizer, env, run, sentences[i], voice, speed) == Ok(r.items[i].audio))
            && (r.failure.None? ==> |r.items| == |sentences|)
            && (r.failure.Some? ==>
                  && |r.items| < |sentences|
                  && GenerateSpec(session, tokenizer, env, run, sentences[|r.items|], voice, speed) == Err(r.failure.value))
    decreases |sentences|
  {
    if sentences != [] {
      var g := GenerateSpec(session, tokenizer, env, run, sentences[0], voice, speed);
      if g.Ok? {
        var r := Yields(session, tokenizer, env, run, sentences, language, voice, speed);
        var rest := Yields(session, tokenizer, env, run, sentences[1..], language, voice, speed);
        YieldsShape(session, tokenizer, env, run, sentences[1..], language, voice, speed);
        assert r.items == [StreamItem(sentences[0], env.phonemize(sentences[0], language), g.value)] + rest.items;
        assert r.failure == rest.failure;
        forall i | 1 <= i < |r.items|
          ensures r.items[i] == rest.items[i - 1] && sentences[i] == sentences[1..][i - 1]
        {
        }
      }
    }
  }

  /** One step of `Yields` from position `i`. */
  lemma YieldsFrom(session: Option<Session>, tokenizer: Option<TokenizerJson>, env: Collaborators, run: Inference,
                   sentences: seq<string>, i: nat, language: char, voice: string, speed: real)
    requires i < |sentences|
    ensures var g := GenerateSpec(session, tokenizer, env, run, sentences[i], voice, speed);
            var rest := Yields(session, tokenizer, env, run, sentences[i + 1..], language, voice, speed);
            Yields(session, tokenizer, env, run, sentences[i..], language, voice, speed)
            == if g.Err? then Yielded([], Some(g.error))
               else Yielded([StreamItem(sentences[i], env.phonemize(sentences[i], language), g.value)] + rest.items,
                            rest.failure)
  {
    assert sentences[i..][0] == sentences[i];
    assert sentences[i..][1..] == sentences[i + 1..];
  }

  /** The loop of `stream` after `i` sentences: `all` is what the whole loop yields and `items`
      what the first `i` sentences yielded; generating sentence `i` either ends the loop with
      its error or extends `items` by that sentence's item. */
  lemma YieldsStep(session: Option<Session>, tokenizer: Option<TokenizerJson>, env: Collaborators, run: Inference,
                   sentences: seq<string>, i: nat, language: char, voice: string, speed: real,
                   all: Yielded, items: seq<StreamItem>)
    requires i < |sentences|
    requires var rest := Yields(session, tokenizer, env, run, sentences[i..], language, voice, speed);
             all == Yielded(items + rest.items, rest.failure)
    ensures var g := GenerateSpec(session, tokenizer, env, run, sentences[i], Some(voice).GetOr(DEFAULT_VOICE),
                                  Some(speed).GetOr(DEFAULT_SPEED));
            && (g.Err? ==> all == Yielded(items, Some(g.error)))
            && (g.Ok? ==>
                  var rest := Yields(session, tokenizer, env, run, sentences[i + 1..], language, voice, speed);
                  all == Yielded(items + [StreamItem(sentences[i], env.phonemize(sentences[i], language), g.value)]
                                 + rest.items, rest.failure))
  {
    YieldsFrom(session, tokenizer, env, run, sentences, i, language, voice, speed);
    var g := GenerateSpec(session, tokenizer, env, run, sentences[i], voice, speed);
    if g.Ok? {
      var item := StreamItem(sentences[i], env.phonemize(sentences[i], language), g.value);
      var rest := Yields(session, tokenizer, env, run, sentences[i + 1..], language, voice, speed);
      assert items + ([item] + rest.items) == items + [item] + rest.items;
    }
  }

  /** What a whole `stream(input, {voice, speed, split_pattern})` iteration yields and how it ends. */
  function StreamSpec(session: Option<Session>, tokenizer: Option<TokenizerJson>, env: Collaborators, run: Inference,
                      input: StreamInput, voice: Option<string>, speed: Option<real>,
                      splitPattern: Option<RegexSplit>): StreamRun
  {
    var v := voice.GetOr(DEFAULT_VOICE);
    match PrepareStream(env.registry, v, input, splitPattern)
    case Err(e) => StreamRun([], Failed(e))
    case Ok((language, splitter)) =>
      var y := Yields(session, tokenizer, env, run, env.segments(splitter), language, v, speed.GetOr(DEFAULT_SPEED));
      StreamRun(y.items,
                if y.failure.Some? then Failed(y.failure.value)
                else if splitter.closed then Finished else Suspended)
  }

  /** `StreamSpec` once the input is prepared. */
  lemma StreamSpecPrepared(session: Option<Session>, tokenizer: Option<TokenizerJson>, env: Collaborators,
                           run: Inference, input: StreamInput, voice: Option<string>, speed: Option<real>,
                           splitPattern: Option<RegexSplit>, language: char, splitter: TextSplitter)
    requires PrepareStream(env.registry, voice.GetOr(DEFAULT_VOICE), input, splitPattern) == Ok((language, splitter))
    ensures var y := Yields(session, tokenizer, env, run, env.segments(splitter), language,
                            voice.GetOr(DEFAULT_VOICE), speed.GetOr(DEFAULT_SPEED));
            StreamSpec(session, tokenizer, env, run, input, voice, speed, splitPattern)
            == StreamRun(y.items, if y.failure.Some? then Failed(y.failure.value)
                                  else if splitter.closed then Finished else Suspended)
  {
  }

  /** A voice outside the registry stops the stream before its input is looked at. */
  lemma StreamValidatesVoiceFirst(session: Option<Session>, tokenizer: Option<TokenizerJson>, env: Collaborators,
                                  run: Inference, input: StreamInput, voice: Option<string>, speed: Option<real>,
                                  splitPattern: Option<RegexSplit>)
    requires voice.GetOr(DEFAULT_VOICE) !in env.registry
    ensures StreamSpec(session, tokenizer, env, run, input, voice, speed, splitPattern)
         == StreamRun([], Failed(UnknownVoice(voice.GetOr(DEFAULT_VOICE), env.registry)))
  {
  }

  /** A stream over a closed splitter either drains or fails, and one over a string never
      drains, because the string path never closes the splitter it creates. */
  lemma StreamEndsByClosedFlag(session: Option<Session>, tokenizer: Option<TokenizerJson>, env: Collaborators,
                               run: Inference, input: StreamInput, voice: Option<string>, speed: Option<real>,
                               splitPattern: Option<RegexSplit>)
    ensures input.SplitterInput? && input.splitter.closed ==>
              !StreamSpec(session, tokenizer, env, run, input, voice, speed, splitPattern).end.Suspended?
    ensures input.TextInput? ==>
              !StreamSpec(session, tokenizer, env, run, input, voice, speed, splitPattern).end.Finished?
  {
  }

  /** One item per sentence, in splitter order, each carrying its sentence as `text`; and when
      the stream fails in a sentence, exactly the sentences before it were yielded. */
  lemma StreamYieldsSentencesInOrder(session: Option<Session>, tokenizer: Option<TokenizerJson>, env: Collaborators,
                                     run: Inference, splitter: TextSplitter, voice: string, speed: real)
    requires voice in env.registry
    ensures var out := StreamSpec(session, tokenizer, env, run, SplitterInput(splitter), Some(voice), Some(speed), None);
            var sentences := env.segments(splitter);
            && |out.items| <= |sentences|
            && (forall i :: 0 <= i < |out.items| ==> out.items[i].text == sentences[i])
            && (!out.end.Failed? ==> |out.items| == |sentences|)
            && (out.end.Failed? ==>
                  && |out.items| < |sentences|
                  && GenerateSpec(session, tokenizer, env, run, sentences[|out.items|], voice, speed) == Err(out.end.error))
  {
    YieldsShape(session, tokenizer, env, run, env.segments(splitter), voice[0], voice, speed);
  }

  /** With no session every sentence fails: a stream with at least one sentence yields nothing
      and fails with "Model not loaded". */
  lemma StreamWithoutSessionFails(tokenizer: Option<TokenizerJson>, env: Collaborators, run: Inference,
                                  splitter: TextSplitter, voice: string, speed: real)
    requires voice in env.registry
    requires |env.segments(splitter)| > 0
    ensures StreamSpec(None, tokenizer, env, run, SplitterInput(splitter), Some(voice), Some(speed), None)
         == StreamRun([], Failed(ModelNotLoaded))
  {
    var y := Yields(None, tokenizer, env, run, env.segments(splitter), voice[0], voice, speed);
    assert y.failure.Some?;
  }

  // ---------------------------------------------------------------------------
  // the TTS object
  // ---------------------------------------------------------------------------

  class PureKokoroTts {
    var session: Option<Session>
    var tokenizer: Option<TokenizerJson>
    /** The sessions `dispose` has released, oldest first. */
    ghost var released: seq<Session>

    constructor()
      ensures session == None && tokenizer == None && released == []
    {
      session := None;
      tokenizer := None;
      released := [];
    }

    /** `load(modelPath, {executionProviders})`: config, then tokenizer, then the session; a
        failing step throws and leaves the later fields as they were. */
    method Load(assets: ModelAssets, executionProviders: Option<seq<string>>) returns (r: Result<(), TtsError>)
      modifies this
      ensures released == old(released)
      ensures var created := assets.createSession(executionProviders.GetOr(DEFAULT_PROVIDERS));
              && (assets.config.Threw? ==> r == Err(LoadFailure(assets.config.message)))
              && (assets.config.Loaded? && assets.tokenizer.Threw? ==> r == Err(LoadFailure(assets.tokenizer.message)))
              && (assets.config.Loaded? && assets.tokenizer.Loaded? && created.Threw? ==> r == Err(LoadFailure(created.message)))
              && (r.Ok? <==> assets.config.Loaded? && assets.tokenizer.Loaded? && created.Loaded?)
              && tokenizer == (if assets.config.Loaded? && assets.tokenizer.Loaded? then assets.tokenizer.value else old(tokenizer))
              && session == (if r.Ok? then Some(created.value) else old(session))
    {
      var providers := executionProviders.GetOr(DEFAULT_PROVIDERS);
      if assets.config.Threw? {
        return Err(LoadFailure(assets.config.message));
      }
      if assets.tokenizer.Threw? {
        return Err(LoadFailure(assets.tokenizer.message));
      }
      tokenizer := assets.tokenizer.value;
      var created := assets.createSession(providers);
      if created.Threw? {
        return Err(LoadFailure(created.message));
      }
      session := Some(created.value);
      r := Ok(());
    }

    /** `tokenize(phonemes)`: the BOS id, one id per symbol in order, then the EOS id. */
    method Tokenize(phonemes: string) returns (r: Result<seq<int>, TtsError>)
      ensures tokenizer.None? <==> r == Err(TokenizerNotLoaded)
      ensures tokenizer.Some? ==> r == Ok(TokenIds(VocabOf(tokenizer.value), phonemes))
      ensures r.Ok? ==>
                var vocab := VocabOf(tokenizer.value);
                && |r.value| == |phonemes| + 2
                && r.value[0] == BosId(vocab)
                && r.value[|phonemes| + 1] == EosId(vocab)
                && forall i :: 0 <= i < |phonemes| ==> r.value[i + 1] == SymbolId(vocab, phonemes[i])
    {
      if tokenizer.None? {
        return Err(TokenizerNotLoaded);
      }
      var vocab := VocabOf(tokenizer.value);
      var tokens: seq<int> := [];
      var bosToken := LookupOr(vocab, "<s>", 1);
      var eosToken := LookupOr(vocab, "</s>", 2);
      var unkToken := LookupOr(vocab, "<unk>", 0);
      tokens := tokens + [bosToken];
      var i := 0;
      while i < |phonemes|
        invariant 0 <= i <= |phonemes|
        invariant |tokens| == i + 1 && tokens[0] == bosToken
        invariant forall k :: 0 <= k < i ==> tokens[k + 1] == SymbolId(vocab, phonemes[k])
      {
        var tokenId := LookupOr(vocab, [phonemes[i]], unkToken);
        tokens := tokens + [tokenId];
        i := i + 1;
      }
      tokens := tokens + [eosToken];
      assert tokens == TokenIds(vocab, phonemes);
      r := Ok(tokens);
    }

    /** `generate(text, {voice, speed})`. */
    method Generate(env: Collaborators, run: Inference, text: string, voice: Option<string>, speed: Option<real>)
      returns (r: Result<Audio, TtsError>)
      ensures r == GenerateSpec(session, tokenizer, env, run, text, voice.GetOr(DEFAULT_VOICE), speed.GetOr(DEFAULT_SPEED))
    {
      if session.None? {
        return Err(ModelNotLoaded);
      }
      var v := voice.GetOr(DEFAULT_VOICE);
      var language :- ValidateVoice(env.registry, v);
      var phonemes := env.phonemize(text, language);
      var tokens :- Tokenize(phonemes);
      var numTokens := Min(Max(|tokens| - 2, 0), 509);
      var voiceData := env.voiceData(v);
      if voiceData.Err? {
        return Err(VoiceDataUnavailable(voiceData.error));
      }
      var offset := numTokens * STYLE_DIM;
      var styleData := TypedSlice(voiceData.value, offset, offset + STYLE_DIM);
      var results := run(session.value, Feeds(tokens, styleData, speed.GetOr(DEFAULT_SPEED)));
      if results.Err? {
        return Err(BackendFailure(results.error));
      }
      if "waveform" !in results.value {
        return Err(NoWaveformOutput);
      }
      r := Ok(Audio(results.value["waveform"], SAMPLE_RATE));
    }

    /** `stream(input, {voice, speed, split_pattern})`: the items in yield order and how the
        iteration ends. */
    method Stream(env: Collaborators, run: Inference, input: StreamInput, voice: Option<string>,
                  speed: Option<real>, splitPattern: Option<RegexSplit>)
      returns (items: seq<StreamItem>, end: StreamEnd)
      ensures StreamRun(items, end) == StreamSpec(session, tokenizer, env, run, input, voice, speed, splitPattern)
    {
      var v := voice.GetOr(DEFAULT_VOICE);
      var prepared := PrepareStream(env.registry, v, input, splitPattern);
      if prepared.Err? {
        return [], Failed(prepared.error);
      }
      var language, splitter := prepared.value.0, prepared.value.1;
      StreamSpecPrepared(session, tokenizer, env, run, input, voice, speed, splitPattern, language, splitter);
      var failure;
      items, failure := GenerateEach(env, run, env.segments(splitter), language, v, speed.GetOr(DEFAULT_SPEED));
      end := if failure.Some? then Failed(failure.value) else if splitter.closed then Finished else Suspended;
    }

    /** The `for await (const sentence of splitter)` loop of `stream`: generates each sentence in
        turn, collecting the items, and stops at the first sentence whose generation throws. */
    method GenerateEach(env: Collaborators, run: Inference, sentences: seq<string>, language: char,
                        voice: string, speed: real)
      returns (items: seq<StreamItem>, failure: Option<TtsError>)
      ensures Yielded(items, failure) == Yields(session, tokenizer, env, run, sentences, language, voice, speed)
    {
      ghost var all := Yields(session, tokenizer, env, run, sentences, language, voice, speed);
      items := [];
      var i := 0;
      assert sentences[i..] == sentences;
      while i < |sentences|
        invariant 0 <= i <= |sentences|
        invariant var rest := Yields(session, tokenizer, env, run, sentences[i..], language, voice, speed);
                  all == Yielded(items + rest.items, rest.failure)
      {
        var sentence := sentences[i];
        var phonemes := env.phonemize(sentence, language);
        var audio := Generate(env, run, sentence, Some(voice), Some(speed));
        YieldsStep(session, tokenizer, env, run, sentences, i, language, voice, speed, all, items);
        if audio.Err? {
          return items, Some(audio.error);
        }
        items := items + [StreamItem(sentence, phonemes, audio.value)];
        i := i + 1;
      }
      assert sentences[i..] == [];
      failure := None;
    }

    /** `dispose()`: releases the session, if any, and forgets it; a rejected release throws
        and the session stays set. The tokenizer stays in every case. */
    method Dispose(release: Release) returns (r: Result<(), TtsError>)
      modifies this
      ensures tokenizer == old(tokenizer)
      ensures old(session).None? ==> r == Ok(()) && session == None && released == old(released)
      ensures old(session).Some? && release(old(session).value).Some? ==>
                && r == Err(BackendFailure(release(old(session).value).value))
                && session == old(session) && released == old(released)
      ensures old(session).Some? && release(old(session).value).None? ==>
                r == Ok(()) && session == None && released == old(released) + [old(session).value]
    {
      r := Ok(());
      if session.Some? {
        var rejected := release(session.value);
        if rejected.Some? {
          return Err(BackendFailure(rejected.value));
        }
        released := released + [session.value];
        session := None;
      }
    }
  }

  /** After a `dispose` that resolves, `generate` fails with "Model not loaded" whatever it is
      asked; `dispose` rejects only when there was a session and releasing it failed. */
  method GenerateAfterDispose(tts: PureKokoroTts, release: Release, env: Collaborators, run: Inference, text: string,
                              voice: Option<string>, speed: Option<real>)
    returns (d: Result<(), TtsError>, r: Result<Audio, TtsError>)
    modifies tts
    ensures d.Err? <==> old(tts.session).Some? && release(old(tts.session).value).Some?
    ensures d.Ok? ==> r == Err(ModelNotLoaded)
  {
    d := tts.Dispose(release);
    r := tts.Generate(env, run, text, voice, speed);
  }
}

/**
 * The TTS web worker: it detects the device, creates and loads a `PureKokoroTts`, and then
 * answers each request by streaming the sentences of its text, posting one WAV file per
 * sentence and, at the end, the whole utterance as one WAV file. What it posts to the page
 * is kept as a list of messages.
 */
module TtsWorker {
  import opened Outcomes
  import opened KokoroShared
  import opened PureKokoro
  import opened Wav

  /** The messages the worker posts, by their `status`. */
  datatype WorkerMessage =
    | DeviceMsg(device: string)                          // {status: "device", device}
    | ReadyMsg(voices: seq<VoiceId>, device: string)     // {status: "ready", voices, device}
    | ErrorMsg(error: string)                            // {status: "error", error}
    | StreamMsg(audio: seq<byte>, text: string)          // {status: "stream", chunk: {audio, text}}
    | CompleteMsg(final: Option<seq<byte>>)              // {status: "complete", audio}

  const NOT_READY: string := "Model not loaded yet"

  // ---------------------------------------------------------------------------
  // merging the chunks
  // ---------------------------------------------------------------------------

  /** `chunks.reduce((sum, chunk) => sum + chunk.data.length, 0)`. */
  function TotalLength(chunks: seq<Audio>): nat {
    if chunks == [] then 0 else TotalLength(chunks[..|chunks| - 1]) + |chunks[|chunks| - 1].data|
  }

  /** The chunks' samples one after another, in chunk order. */
  function Concat(chunks: seq<Audio>): (merged: seq<int16>)
    ensures |merged| == TotalLength(chunks)
  {
    if chunks == [] then [] else Concat(chunks[..|chunks| - 1]) + chunks[|chunks| - 1].data
  }

  lemma ConcatExtend(chunks: seq<Audio>, k: nat)
    requires k < |chunks|
    ensures Concat(chunks[..k + 1]) == Concat(chunks[..k]) + chunks[k].data
    ensures TotalLength(chunks[..k + 1]) == TotalLength(chunks[..k]) + |chunks[k].data|
  {
    assert chunks[..k + 1][..k] == chunks[..k];
  }

  /** Chunk `k` sits in the merged waveform right after the chunks before it. */
  lemma {:induction false} ChunkInConcat(chunks: seq<Audio>, k: nat)
    requires k < |chunks|
    ensures TotalLength(chunks[..k]) + |chunks[k].data| <= TotalLength(chunks)
    ensures Concat(chunks)[TotalLength(chunks[..k])..TotalLength(chunks[..k]) + |chunks[k].data|] == chunks[k].data
    decreases |chunks|
  {
    var init := chunks[..|chunks| - 1];
    var last := chunks[|chunks| - 1].data;
    if k == |chunks| - 1 {
      assert chunks[..k] == init;
      SliceOfAppend(Concat(init), last, |Concat(init)|, |Concat(init)| + |last|);
    } else {
      ChunkInConcat(init, k);
      assert init[..k] == chunks[..k];
      assert init[k] == chunks[k];
      SliceOfAppend(Concat(init), last, TotalLength(chunks[..k]), TotalLength(chunks[..k]) + |chunks[k].data|);
    }
  }

  /** A slice of `x + y` inside `x`, or exactly covering `y`. */
  lemma SliceOfAppend<T>(x: seq<T>, y: seq<T>, a: nat, b: nat)
    requires a <= b <= |x| + |y|
    ensures b <= |x| ==> (x + y)[a..b] == x[a..b]
    ensures a == |x| && b == |x| + |y| ==> (x + y)[a..b] == y
  {
  }

  /** The merge loop: a buffer of `totalLength` samples filled chunk by chunk at a running
      offset, as `mergedWaveform.set(chunk.data, offset)` does. */
  method MergeWaveforms(chunks: seq<Audio>) returns (merged: seq<int16>)
    ensures merged == Concat(chunks)
  {
    var total := TotalLength(chunks);
    var buffer := new int16[total];
    var offset := 0;
    var k := 0;
    while k < |chunks|
      invariant 0 <= k <= |chunks|
      invariant offset == TotalLength(chunks[..k]) <= total
      invariant buffer[..offset] == Concat(chunks[..k])
    {
      ConcatExtend(chunks, k);
      ChunkInConcat(chunks, k);
      assert chunks[..|chunks|] == chunks;
      var data := chunks[k].data;
      Put(buffer, offset, data);
      offset := offset + |data|;
      k := k + 1;
    }
    assert chunks[..k] == chunks;
    assert buffer[..] == buffer[..offset];
    merged := buffer[..];
  }

  /** The last message's audio: none without chunks, otherwise the merged waveform as a WAV
      file at the first chunk's sample rate. */
  function FinalAudio(chunks: seq<Audio>): (blob: Option<seq<byte>>)
    ensures blob.None? <==> chunks == []
    ensures blob.Some? ==> blob.value == WavBytes(Concat(chunks), chunks[0].sampleRate)
  {
    if |chunks| > 0 then Some(WavBytes(Concat(chunks), chunks[0].sampleRate)) else None
  }

  // ---------------------------------------------------------------------------
  // what a request posts
  // ---------------------------------------------------------------------------

  function AudiosOf(items: seq<StreamItem>): (chunks: seq<Audio>)
    ensures |chunks| == |items|
    ensures forall i :: 0 <= i < |items| ==> chunks[i] == items[i].audio
  {
    seq(|items|, i requires 0 <= i < |items| => items[i].audio)
  }

  /** One `stream` message per yielded item: the sentence's WAV file and its text. */
  function StreamMessages(items: seq<StreamItem>): (msgs: seq<WorkerMessage>)
    ensures |msgs| == |items|
    ensures forall i :: 0 <= i < |items| ==>
              msgs[i] == StreamMsg(WavBytes(items[i].audio.data, items[i].audio.sampleRate), items[i].text)
  {
    seq(|items|, i requires 0 <= i < |items| =>
          StreamMsg(WavBytes(items[i].audio.data, items[i].audio.sampleRate), items[i].text))
  }

  /** What a request posts once the stream has run: the `stream` messages and then `error` if
      the stream threw, or `complete` if it drained; an open splitter never drains, and then
      nothing more is posted. */
  function Reply(out: StreamRun): seq<WorkerMessage> {
    StreamMessages(out.items)
    + match out.end
      case Failed(e) => [ErrorMsg(ErrorMessage(e))]
      case Finished => [CompleteMsg(FinalAudio(AudiosOf(out.items)))]
      case Suspended => []
  }

  /** The splitter a request streams from: its text pushed and the splitter closed. */
  function RequestSplitter(text: string): TextSplitter {
    TextSplitter([text], true)
  }

  /** A request's reply, in a worker whose `tts` has the given session and tokenizer. */
  function RequestReply(session: Option<Session>, tokenizer: Option<TokenizerJson>, env: Collaborators,
                        run: Inference, text: string, voice: Option<string>, speed: Option<real>)
    : seq<WorkerMessage>
  {
    Reply(StreamSpec(session, tokenizer, env, run, SplitterInput(RequestSplitter(text)), voice, speed, None))
  }

  /** A request posts its `stream` messages, one per yielded sentence in yield order, followed by
      exactly one `complete` or `error`; `complete` carries no audio exactly when nothing was
      yielded. */
  lemma RequestReplyShape(session: Option<Session>, tokenizer: Option<TokenizerJson>, env: Collaborators,
                          run: Inference, text: string, voice: Option<string>, speed: Option<real>)
    ensures var out := StreamSpec(session, tokenizer, env, run, SplitterInput(RequestSplitter(text)), voice, speed, None);
            var msgs := RequestReply(session, tokenizer, env, run, text, voice, speed);
            && |msgs| == |out.items| + 1
            && msgs[..|out.items|] == StreamMessages(out.items)
            && (msgs[|out.items|].ErrorMsg? || msgs[|out.items|].CompleteMsg?)
            && (msgs[|out.items|].ErrorMsg? <==> out.end.Failed?)
            && (msgs[|out.items|].CompleteMsg? ==> (msgs[|out.items|].final.None? <==> out.items == []))
  {
    StreamEndsByClosedFlag(session, tokenizer, env, run, SplitterInput(RequestSplitter(text)), voice, speed, None);
  }

  /** The final audio holds every chunk, in order: chunk `k` of the merge is the `k`-th
      yielded sentence's waveform, at the position after those before it. */
  lemma FinalAudioHoldsEveryChunk(items: seq<StreamItem>, k: nat)
    requires k < |items|
    ensures var chunks := AudiosOf(items);
            var merged := Concat(chunks);
            var at := TotalLength(chunks[..k]);
            at + |items[k].audio.data| <= |merged| && merged[at..at + |items[k].audio.data|] == items[k].audio.data
  {
    ChunkInConcat(AudiosOf(items), k);
  }

  /** When the load failed the worker's `tts` is set but has no session, so a request whose
      voice is known and whose text has a sentence gets "Model not loaded. Call load() first."
      rather than "Model not loaded yet". */
  lemma RequestAfterFailedLoad(tokenizer: Option<TokenizerJson>, env: Collaborators, run: Inference, text: string,
                               voice: string, speed: real)
    requires voice in env.registry
    requires |env.segments(RequestSplitter(text))| > 0
    ensures RequestReply(None, tokenizer, env, run, text, Some(voice), Some(speed))
         == [ErrorMsg("Model not loaded. Call load() first.")]
  {
    StreamWithoutSessionFails(tokenizer, env, run, RequestSplitter(text), voice, speed);
  }

  // ---------------------------------------------------------------------------
  // start-up
  // ---------------------------------------------------------------------------

  /** The device `detectWebGPU` picks. */
  function DeviceFor(webgpu: bool): string {
    if webgpu then "webgpu" else "wasm"
  }

  /** The execution providers the worker asks for on `device`: WebGPU first, falling back to
      WebAssembly, unless the device is WebAssembly. */
  function ProvidersFor(device: string): (providers: seq<string>)
    ensures device == "wasm" ==> providers == ["wasm"]
    ensures device != "wasm" ==> providers == ["webgpu", "wasm"]
    ensures providers[|providers| - 1] == "wasm"
  {
    if device == "wasm" then ["wasm"] else ["webgpu", "wasm"]
  }

  // ---------------------------------------------------------------------------
  // the worker
  // ---------------------------------------------------------------------------

  class Worker {
    /** The module-level `tts`: null until start-up creates it. */
    var tts: PureKokoroTts?
    /** Every message posted so far, oldest first. */
    var posted: seq<WorkerMessage>

    constructor()
      ensures tts == null && posted == []
    {
      tts := null;
      posted := [];
    }

    /** `initializeModel()`: posts the device, creates the TTS object and loads it with the
        device's providers, then posts `ready` or the load error. */
    method InitializeModel(webgpu: bool, assets: ModelAssets, voices: seq<VoiceId>)
      modifies this
      ensures tts != null && fresh(tts)
      ensures var device := DeviceFor(webgpu);
              var created := assets.createSession(ProvidersFor(device));
              var loaded := assets.config.Loaded? && assets.tokenizer.Loaded? && created.Loaded?;
              && (loaded ==> posted == old(posted) + [DeviceMsg(device), ReadyMsg(voices, device)])
              && (loaded ==> tts.session == Some(created.value))
              && (!loaded ==> |posted| == |old(posted)| + 2 && posted[..|old(posted)|] == old(posted))
              && (!loaded ==> posted[|old(posted)|] == DeviceMsg(device))
              && (!loaded ==>
                    posted[|old(posted)| + 1]
                    == ErrorMsg(if assets.config.Threw? then assets.config.message
                                else if assets.tokenizer.Threw? then assets.tokenizer.message
                                else created.message))
              && (!loaded ==> tts.session == None)
      ensures tts.tokenizer == (if assets.config.Loaded? && assets.tokenizer.Loaded? then assets.tokenizer.value else None)
    {
      var device := DeviceFor(webgpu);
      posted := posted + [DeviceMsg(device)];
      var t := new PureKokoroTts();
      tts := t;
      var providers := ProvidersFor(device);
      var r := t.Load(assets, Some(providers));
      if r.Ok? {
        posted := posted + [ReadyMsg(voices, device)];
      } else {
        posted := posted + [ErrorMsg(ErrorMessage(r.error))];
      }
    }

    /** The `message` handler for a request `{text, voice, speed}`. */
    method HandleRequest(env: Collaborators, run: Inference, text: string, voice: Option<string>,
                         speed: Option<real>)
      modifies this
      ensures tts == old(tts)
      ensures tts == null ==> posted == old(posted) + [ErrorMsg(NOT_READY)]
      ensures tts != null ==>
                posted == old(posted) + RequestReply(tts.session, tts.tokenizer, env, run, text, voice, speed)
    {
      if tts == null {
        posted := posted + [ErrorMsg(NOT_READY)];
        return;
      }
      var t := tts;
      var streamer := RequestSplitter(text);
      var items, end := t.Stream(env, run, SplitterInput(streamer), voice, speed, None);
      var chunks := PostChunks(items);
      PostEnd(end, chunks);
    }

    /** The body of the `for await` loop: one `stream` message per item, and its audio kept. */
    method PostChunks(items: seq<StreamItem>) returns (chunks: seq<Audio>)
      modifies this
      ensures tts == old(tts)
      ensures posted == old(posted) + StreamMessages(items)
      ensures chunks == AudiosOf(items)
    {
      chunks := [];
      var i := 0;
      while i < |items|
        invariant 0 <= i <= |items|
        invariant tts == old(tts)
        invariant posted == old(posted) + StreamMessages(items[..i])
        invariant chunks == AudiosOf(items[..i])
      {
        var audioBlob := AudioToBlob(items[i].audio.data, items[i].audio.sampleRate);
        posted := posted + [StreamMsg(audioBlob, items[i].text)];
        chunks := chunks + [items[i].audio];
        assert StreamMessages(items[..i + 1]) == StreamMessages(items[..i]) + [StreamMsg(audioBlob, items[i].text)];
        assert AudiosOf(items[..i + 1]) == AudiosOf(items[..i]) + [items[i].audio];
        i := i + 1;
      }
      assert items[..i] == items;
    }

    /** After the loop: `error` if the stream threw, otherwise the merge and `complete`. */
    method PostEnd(end: StreamEnd, chunks: seq<Audio>)
      modifies this
      ensures tts == old(tts)
      ensures posted == old(posted) + match end
                                      case Failed(e) => [ErrorMsg(ErrorMessage(e))]
                                      case Finished => [CompleteMsg(FinalAudio(chunks))]
                                      case Suspended => []
    {
      match end
      case Failed(e) =>
        posted := posted + [ErrorMsg(ErrorMessage(e))];
      case Finished =>
        var finalAudio: Option<seq<byte>> := None;
        if |chunks| > 0 {
          var sampleRate := chunks[0].sampleRate;
          var merged := MergeWaveforms(chunks);
          var blob := AudioToBlob(merged, sampleRate);
          finalAudio := Some(blob);
        }
        posted := posted + [CompleteMsg(finalAudio)];
      case Suspended =>
    }
  }
}

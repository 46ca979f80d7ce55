# ParrotSpeech TTS pipeline, modelled in Dafny

ParrotSpeech synthesises speech in the browser. A web worker loads a Kokoro text-to-speech
model through ONNX Runtime Web. It streams the sentences of each request through phonemizing,
tokenizing and inference, and posts one WAV file per sentence and one for the whole utterance.
This project models the bookkeeping around the neural network and proves what it promises:

- **Token ids and style selection** (`pure-kokoro.ts`, mirrored in `kokoro.ts`):
  - the BOS/EOS/UNK sentinels with JavaScript's `||` fallback, so an id of 0 counts as absent;
  - the token-count clamp to `[0, 509]`;
  - the 256-wide style window;
  - voice validation;
  - the session lifecycle `load` → `generate` → `dispose`.
- **Streaming** (`pure-kokoro.ts`, `kokoro.ts`):
  - the voice is checked before anything else;
  - a string input becomes trimmed non-empty chunks, or the text untouched;
  - an input of another type is rejected;
  - the sentence loop yields one item per sentence, in order, up to the first failure.
- **The worker** (`tts-worker.ts`):
  - the 44-byte RIFF/WAVE PCM header and the little-endian 16-bit samples, written into a byte
    array and proved to decode back to the samples and the rate;
  - the in-order merge of the chunk waveforms;
  - the exact sequence of posted messages;
  - the start-up sequence.
- **Execution providers** (`onnx-setup.ts`): the device rule, the supported and default
  devices, and the write-once initialisation cell.
- **The phonemizer front end** (`phonemizer/phonemizer.ts`):
  - the filtering of the backend's voices to English;
  - the identifier set;
  - `list_voices`;
  - `phonemize`'s language check and IPA line splitting.

## Files

| file | module |
|---|---|
| `outcomes.dfy` | `Outcomes`: `Option` and `Result`. |
| `js_strings.dfy` | `JsStrings`: the JavaScript string operations the source relies on (`join`, `split` on one character, `filter` of empty strings, `trim`, `startsWith`, the default `sort`). |
| `kokoro_shared.dfy` | `KokoroShared`: constants, error values and messages, voice validation, style selection, stream input preparation. These are shared by both front ends. |
| `pure_kokoro.dfy` | `PureKokoro`: the class `PureKokoroTts` (fields `session` and `tokenizer`, methods `Load`, `Tokenize`, `Generate`, `Stream`, `Dispose`). Its methods are proved against the functions `GenerateSpec`, `Yields` and `StreamSpec`. |
| `kokoro.dfy` | `Kokoro`: `KokoroTTS` as a value holding its tokenizer and model. `Generate` is a function; `Stream` is a method with the sentence loop. |
| `wav.dfy` | `Wav`: the WAV layout `WavBytes`, a parser `ParseWav` with its round trip, and `AudioToBlob` writing into an `array<byte>`. |
| `tts_worker.dfy` | `TtsWorker`: the merge loop, the reply to a request, and the class `Worker` (fields `tts` and `posted`). |
| `onnx_setup.dfy` | `OnnxSetup`: `ExecutionProviders`, and the class `OnnxBackend` (supported/default devices, the `wasmInitPromise` cell). |
| `phonemizer.dfy` | `Phonemizer`: the cache, the identifier loops, `ListVoices`, `Phonemize`. |

## Modelling decisions

**Calls into code that is not part of this model** are parameters, gathered in
`KokoroShared.Collaborators`:
- the registered voice ids (`VOICES`);
- `phonemize` from `./phonemize`;
- `getVoiceData`, whose rejection is the `VoiceDataUnavailable` error;
- the segmentation of a `TextSplitterStream` (`splitter.ts`).

A splitter is a value holding the text pushed into it and whether it was closed.

**Samples are already quantised `int16` values.** `session.run` is a function from the feeds to
named outputs. The Hugging Face tokenizer and model of `kokoro.ts` are functions too.
`split(split_pattern)` is a function from a string to its pieces.

**How a stream ends.** A stream over a closed splitter ends `Finished` once every sentence is
generated. A stream over a splitter that was never closed ends `Suspended`: the `for await`
waits for more text forever. The string path of `stream` pushes its chunks and never calls
`close()` (web/src/parrotspeech/kokoro.ts:191, web/src/parrotspeech/pure-kokoro.ts:220), so it
ends `Suspended` after yielding every chunk. The worker closes its splitter
(web/src/tts-worker.ts:104), so its streams end `Finished` or `Failed`.

**After a failed load, `tts` is not null.** The worker assigns `tts` before `load` runs
(web/src/tts-worker.ts:62-78). A failed load therefore leaves an object without a session. Later
requests get "Model not loaded. Call load() first." from `generate`, not "Model not loaded yet"
(`TtsWorker.RequestAfterFailedLoad`).

**Error values.** Every error the source throws is a `TtsError` value, and `ErrorMessage` gives
its `message` string. Calling `.data` on the missing `waveform` in `kokoro.ts` is the TypeError
"Cannot read properties of undefined (reading 'data')", as the V8 engine words it; other
engines word this TypeError differently. A rejected inference call
(`session.run`, `this.model`) or a rejected `session.release()` is `BackendFailure` carrying the
rejection's message; the inference parameters return it as an `Err`.

**Fixed-width writes.** `setUint32` stores its value modulo 2^32, so the size fields and both
rates are stated modulo 2^32. The parser's round trip holds while `36 + 2n` and the rate fit in
32 bits.

**A rejected first session sticks.** When the first `InferenceSession.create` rejects, its
promise stays in `wasmInitPromise`. Every later `createInferenceSession` then rethrows that error
without trying again (`OnnxSetup.CreateTwice`).

## Model

| member | source | states |
|---|---|---|
| KokoroShared.ValidateVoice | web/src/parrotspeech/pure-kokoro.ts:126-134 | Succeeds exactly when the voice is registered, and then gives its first character (the language tag). Otherwise it is the unknown-voice error carrying the registry. The same rule is `_validate_voice` at web/src/parrotspeech/kokoro.ts:111-119. |
| KokoroShared.UnknownVoiceNamesEvery | web/src/parrotspeech/pure-kokoro.ts:130 | The unknown-voice message contains every registered voice id, each at its position in the `", "`-joined list. |
| KokoroShared.NumTokens | web/src/parrotspeech/pure-kokoro.ts:158 | The clamped token count lies in `[0, 509]`. It is 0 for at most 2 ids, the count minus the two sentinels up to 511 ids, and 509 beyond. |
| KokoroShared.StyleOffset | web/src/parrotspeech/pure-kokoro.ts:160 | The style offset is a multiple of 256 and at most `509 * 256`. |
| KokoroShared.TypedSlice | web/src/parrotspeech/pure-kokoro.ts:161 | `slice` clamps both bounds to the table. Its length is `max(0, min(end,len) - min(start,len))`, element `i` is table element `start + i`, and in-range bounds give the ordinary slice. |
| KokoroShared.SelectStyle | web/src/parrotspeech/pure-kokoro.ts:158-161 | The style has at most 256 values, each the table value at `offset + i`. It is exactly `table[offset..offset+256]` when the table is long enough; otherwise it is the clamped remainder. |
| KokoroShared.FullTableGivesFullStyle | web/src/parrotspeech/kokoro.ts:147-152 | With a full table of 510 rows, every utterance gets a complete 256-value row, row `NumTokens(count)`. |
| KokoroShared.TrimAll | web/src/parrotspeech/kokoro.ts:188 | `.map(trim)`: one trimmed piece per piece, in order. |
| KokoroShared.StringChunks | web/src/parrotspeech/kokoro.ts:185-190 | Without a split pattern the chunks are exactly `[text]`, untrimmed. With one, they are exactly `ChunksOf` of the pieces: the pieces trimmed, the empty ones dropped, in source order (fixed by `ChunksOfAppend` and `ChunksOfSingle`). Every such chunk is non-empty and equal to its own trim. |
| KokoroShared.ChunksOfAppend | web/src/parrotspeech/kokoro.ts:185-189 | Chunking distributes over concatenation of the pieces, so the chunks keep source order. |
| KokoroShared.ChunksOfSingle | web/src/parrotspeech/kokoro.ts:188-189 | A single piece gives its trim, or nothing when the trim is empty. |
| KokoroShared.SplitterFor | web/src/parrotspeech/kokoro.ts:181-194 | A splitter input is used as given. A string gives an open splitter holding its chunks. Any other input is the "Invalid input type" error, and only such an input gives it. |
| KokoroShared.PrepareStream | web/src/parrotspeech/kokoro.ts:177-194 | An unregistered voice fails first whatever the input. A non-string is rejected next. A registered voice with a string or a splitter always goes ahead. Success gives the voice's language tag and the dispatcher's splitter. |
| JsStrings.Split | web/src/phonemizer/phonemizer.ts:106 | `split` on one character gives at least one piece, and no piece contains the separator. |
| JsStrings.JoinSplit | web/src/phonemizer/phonemizer.ts:106 | Joining the pieces of a split with the separator gives back the string. |
| JsStrings.SplitJoin | web/src/phonemizer/phonemizer.ts:106 | Splitting a join of separator-free pieces gives back the pieces. |
| JsStrings.NonEmpty | web/src/phonemizer/phonemizer.ts:107 | `filter(x => x.length > 0)` keeps exactly the non-empty pieces and no more of them. |
| JsStrings.NonEmptyAppend | web/src/parrotspeech/kokoro.ts:189 | The filter distributes over concatenation, so the kept pieces keep their order. |
| JsStrings.Trim | web/src/parrotspeech/kokoro.ts:188 | `trim` gives the slice of the string between its leading and trailing whitespace. Everything cut off is whitespace, and the result neither starts nor ends with whitespace. |
| JsStrings.TrimIdempotent | web/src/parrotspeech/kokoro.ts:188 | Trimming twice is trimming once. |
| JsStrings.SortStrings | web/src/phonemizer/phonemizer.ts:98 | `Array.from(identifiers).sort()` is a permutation of the identifiers, sorted lexicographically. |
| JsStrings.JoinMentionsEvery | web/src/onnx-setup.ts:65 | Every part of a `join` occurs in the joined string at its computed offset. |
| PureKokoro.BosId | web/src/parrotspeech/pure-kokoro.ts:87 | The BOS id is never 0. It is 1 when `<s>` is absent from the vocabulary or mapped to 0. |
| PureKokoro.EosId | web/src/parrotspeech/pure-kokoro.ts:88 | The EOS id is never 0. It is 2 when `</s>` is absent or mapped to 0. |
| PureKokoro.TokenIdsInjective | web/src/parrotspeech/pure-kokoro.ts:94-97 | When every symbol is known by a distinct non-zero id, equal token ids imply equal phoneme strings, so symbol order is kept. |
| PureKokoro.StyleRowIsPhonemeCount | web/src/parrotspeech/pure-kokoro.ts:151-160 | The style row chosen for a tokenized utterance is its phoneme count, capped at 509. |
| PureKokoro.GenerateSpec | web/src/parrotspeech/pure-kokoro.ts:139-193 | Every outcome, in check order. No session is "Model not loaded" whatever else holds. Then an unknown voice is the unknown-voice error, no tokenizer is "Tokenizer not loaded", and unavailable voice data is that error. Otherwise the run on the token ids, the selected style and the speed decides. A rejected run is its error. A result without `waveform` is "No waveform output found". A result with it gives that waveform at 24000 Hz. |
| PureKokoro.YieldsShape | web/src/parrotspeech/pure-kokoro.ts:225-229 | The loop yields the first sentences in order, each with its text, its phonemes and its generated audio. Without a failure it yields every sentence. With one, the failure is the error of the first sentence not yielded. |
| PureKokoro.StreamValidatesVoiceFirst | web/src/parrotspeech/pure-kokoro.ts:207 | An unregistered voice stops the stream with the unknown-voice error and no items, whatever the input. |
| PureKokoro.StreamEndsByClosedFlag | web/src/parrotspeech/pure-kokoro.ts:209-229 | A closed splitter's stream drains or fails and is never left waiting. A string's stream never finishes, because its splitter is never closed. |
| PureKokoro.StreamYieldsSentencesInOrder | web/src/parrotspeech/pure-kokoro.ts:225-229 | One item per splitter sentence, in order, with that sentence as its text. All of them unless it failed, and then the failure is the next sentence's generate error. |
| PureKokoro.StreamWithoutSessionFails | web/src/parrotspeech/pure-kokoro.ts:140-142 | With no session, a stream with a sentence yields nothing and fails with "Model not loaded". |
| PureKokoro.PureKokoroTts.constructor | web/src/parrotspeech/pure-kokoro.ts:18-23 | A new object has no session and no tokenizer. |
| PureKokoro.PureKokoroTts.Load | web/src/parrotspeech/pure-kokoro.ts:30-71 | Config, then tokenizer, then session. The first step that throws is the error. The tokenizer is stored once fetched, and the session only when created. It succeeds exactly when all three steps do, using `["wasm"]` when no providers are given. |
| PureKokoro.PureKokoroTts.Tokenize | web/src/parrotspeech/pure-kokoro.ts:77-102 | With no tokenizer it is exactly "Tokenizer not loaded". Otherwise `|phonemes| + 2` ids: the BOS id, the id of each symbol in order, then the EOS id. |
| PureKokoro.PureKokoroTts.Generate | web/src/parrotspeech/pure-kokoro.ts:139-193 | The result is `GenerateSpec` of the current session and tokenizer, with the defaults "af_heart" and 1. |
| PureKokoro.PureKokoroTts.Stream | web/src/parrotspeech/pure-kokoro.ts:198-230 | The items yielded and the way the iteration ends are `StreamSpec` of the state and the arguments. |
| PureKokoro.PureKokoroTts.GenerateEach | web/src/parrotspeech/pure-kokoro.ts:225-229 | The loop over the sentences yields exactly `Yields`: items up to the first failing `generate`, and that failure. |
| PureKokoro.PureKokoroTts.Dispose | web/src/parrotspeech/pure-kokoro.ts:235-240 | With no session nothing is released and it succeeds. A release that resolves appends the session to the released list and clears it. A release that rejects is that error, and the session stays set. The tokenizer is kept in every case. |
| PureKokoro.GenerateAfterDispose | web/src/parrotspeech/pure-kokoro.ts:140-142 | `dispose` rejects exactly when there was a session whose release rejected. After a `dispose` that resolves, `generate` fails with "Model not loaded" whatever it is asked. |
| Kokoro.GenerateFromIds | web/src/parrotspeech/kokoro.ts:145-164 | Unavailable voice data is that error. Otherwise the model call on the ids, the selected style and the speed decides. A rejected call is its error. A result without `waveform` is the TypeError. It succeeds exactly when the result has a waveform, and then returns that waveform at 24000 Hz. |
| Kokoro.GenerateFromIdsUsesRow | web/src/parrotspeech/kokoro.ts:147-152 | With a full voice table, the model gets row `NumTokens(|ids|)`: table elements `offset .. offset + 256`. |
| Kokoro.Generate | web/src/parrotspeech/kokoro.ts:128-137 | An unregistered voice is the unknown-voice error. Otherwise it phonemizes, tokenizes and generates from the ids with the voice's language and the defaults. |
| Kokoro.GenerateValidatesVoiceFirst | web/src/parrotspeech/kokoro.ts:129 | For an unregistered voice the result does not depend on the model, tokenizer, phonemizer, voice data, text or speed. |
| Kokoro.YieldsShape | web/src/parrotspeech/kokoro.ts:195-206 | The loop yields the first sentences in order with their phonemes and audio. All of them without a failure; otherwise the failure is the first missing sentence's error. |
| Kokoro.Stream | web/src/parrotspeech/kokoro.ts:172-207 | The yielded items and the end are `StreamSpec` of the arguments. |
| Kokoro.GenerateEach | web/src/parrotspeech/kokoro.ts:195-206 | The sentence loop yields exactly `Yields`. |
| Kokoro.StreamValidatesVoiceFirst | web/src/parrotspeech/kokoro.ts:177 | An unregistered voice fails with no items before the input is looked at. |
| Kokoro.StreamRejectsOtherInput | web/src/parrotspeech/kokoro.ts:192-194 | Input that is neither a string nor a splitter yields nothing and throws "Invalid input type". |
| Kokoro.StreamYieldsSentencesInOrder | web/src/parrotspeech/kokoro.ts:195-206 | One item per splitter sentence in order, text equal to the sentence. All of them unless a sentence failed, and then the failure is that sentence's error. |
| Wav.ReadLEOfLE | web/src/tts-worker.ts:27 | Reading back a little-endian `k`-byte field gives the stored value modulo 256^k. |
| Wav.Unsigned16 | web/src/tts-worker.ts:44 | `setInt16` stores a negative sample as its two's complement `x + 65536`. |
| Wav.ReadI16OfI16LE | web/src/tts-worker.ts:44 | The two bytes of a sample decode back to the sample. |
| Wav.Ascii | web/src/tts-worker.ts:20-24 | `writeString` emits one byte per character, the low 8 bits of its code. |
| Wav.TagsAreAscii | web/src/tts-worker.ts:26-37 | The four tags are the ASCII codes of "RIFF", "WAVE", "fmt " and "data". |
| Wav.WavBytes | web/src/tts-worker.ts:16 | The file has `44 + 2n` bytes for `n` samples. |
| Wav.RiffLayout | web/src/tts-worker.ts:26-28 | "RIFF" at 0, the size `36 + 2n` (mod 2^32) at 4, "WAVE" at 8. |
| Wav.FmtLayout | web/src/tts-worker.ts:29-36 | At offset 12: "fmt ", size 16, format 1, 1 channel, the rate, the byte rate `2 * rate` (mod 2^32), block align 2, 16 bits. |
| Wav.DataLayout | web/src/tts-worker.ts:37-38 | "data" at 36 and `2n` (mod 2^32) at 40. |
| Wav.SampleAt | web/src/tts-worker.ts:41-46 | Sample `i` occupies bytes `44 + 2i` and `45 + 2i` and decodes back to itself. |
| Wav.SizeFields | web/src/tts-worker.ts:27-38 | Without wrap-around, the RIFF size is the file length minus 8 and the data size is the file length minus 44. |
| Wav.ParseWavBytes | web/src/tts-worker.ts:13-49 | A WAV file parses back to exactly its samples and rate. |
| Wav.WriteString | web/src/tts-worker.ts:20-24 | Writes the ASCII bytes at the offset and changes nothing after them. |
| Wav.WriteRiffHeader | web/src/tts-worker.ts:26-28 | Bytes 0-11 become the RIFF header; later bytes are unchanged. |
| Wav.WriteFmtChunk | web/src/tts-worker.ts:29-36 | Bytes 12-35 become the `fmt ` chunk; earlier and later bytes are unchanged. |
| Wav.WriteDataHeader | web/src/tts-worker.ts:37-38 | Bytes 36-43 become the `data` header; earlier and later bytes are unchanged. |
| Wav.WriteHeader | web/src/tts-worker.ts:26-38 | The header writes in order give the 44 header bytes and leave the sample area alone. |
| Wav.WriteSamples | web/src/tts-worker.ts:41-46 | The running-offset loop leaves the header and fills the rest with the sample bytes, in order. |
| Wav.AudioToBlob | web/src/tts-worker.ts:13-49 | The buffer written is exactly `WavBytes(samples, rate)`. |
| TtsWorker.Concat | web/src/tts-worker.ts:126 | The merged waveform's length is the sum of chunk lengths. |
| TtsWorker.ChunkInConcat | web/src/tts-worker.ts:129-133 | Chunk `k` sits in the merge right after the chunks before it. |
| TtsWorker.MergeWaveforms | web/src/tts-worker.ts:125-133 | The merge loop fills the buffer with the in-order concatenation of the chunks. |
| TtsWorker.FinalAudio | web/src/tts-worker.ts:123-136 | The final audio is null exactly when there are no chunks. Otherwise it is the WAV file of the merge at the first chunk's rate. |
| TtsWorker.StreamMessages | web/src/tts-worker.ts:109-118 | One `stream` message per item, carrying that item's WAV file and text, in order. |
| TtsWorker.RequestReplyShape | web/src/tts-worker.ts:101-141 | The reply is the `stream` messages in yield order followed by exactly one message. It is `error` exactly when the stream failed, otherwise `complete`, whose audio is null exactly when nothing was yielded. |
| TtsWorker.FinalAudioHoldsEveryChunk | web/src/tts-worker.ts:124-135 | Each yielded sentence's waveform appears in the merged audio at its offset. |
| TtsWorker.RequestAfterFailedLoad | web/src/tts-worker.ts:101-141 | A worker whose load failed answers a request whose voice is registered and whose text has a sentence with the single error "Model not loaded. Call load() first.". |
| TtsWorker.ProvidersFor | web/src/tts-worker.ts:68-74 | `["wasm"]` on WebAssembly, otherwise `["webgpu", "wasm"]`; WebAssembly is always the last fallback. |
| TtsWorker.Worker.constructor | web/src/tts-worker.ts:52 | `tts` starts null and nothing has been posted. |
| TtsWorker.Worker.InitializeModel | web/src/tts-worker.ts:55-87 | Posts `device`, creates a fresh `tts` and loads it with the device's providers. Then it posts `ready` with the voices when the load succeeds. Otherwise it posts `error` with the message of the first failing step (config, tokenizer, session), leaving a `tts` without a session. The new `tts` holds the loaded tokenizer once config and tokenizer loaded, and no tokenizer otherwise. |
| TtsWorker.Worker.HandleRequest | web/src/tts-worker.ts:93-142 | With `tts` null it posts only "Model not loaded yet". Otherwise it posts the reply of streaming the closed one-text splitter, and `tts` is unchanged. |
| TtsWorker.Worker.PostChunks | web/src/tts-worker.ts:109-120 | Posts one `stream` message per item and returns the items' audio, in order. |
| TtsWorker.Worker.PostEnd | web/src/tts-worker.ts:122-140 | Posts `error` for a failed stream, or the merge as `complete` for a drained one. |
| OnnxSetup.ProviderMapping | web/src/onnx-setup.ts:11-17 | `cpu`, `wasm` and `webgpu` map to themselves; `auto`, `gpu` and every other name the code looks up map to nothing. |
| OnnxSetup.SupportedDevices | web/src/onnx-setup.ts:34-39 | `["webgpu", "wasm"]` with WebGPU, `["wasm"]` without. |
| OnnxSetup.WebGpuOnly | web/src/onnx-setup.ts:56-58 | The `gpu` filter keeps exactly the `webgpu` entries, as a subsequence. |
| OnnxSetup.ExecutionProviders | web/src/onnx-setup.ts:47-66 | No device or "" gives the defaults, `auto` the supported list, `gpu` its WebGPU filter, a supported device itself. Any other device is the "Unsupported device" error naming the supported list. |
| OnnxSetup.ProvidersAreSupported | web/src/onnx-setup.ts:47-66 | Every returned list is a subsequence of the supported devices, in priority order, and a supported device gives itself alone. |
| OnnxSetup.CpuIsRejected | web/src/onnx-setup.ts:61-65 | `cpu` is rejected although the mapping lists it. |
| OnnxSetup.NoWebGpu | web/src/onnx-setup.ts:55-63 | Without WebGPU, `gpu` gives the empty list and `webgpu` is rejected. |
| OnnxSetup.OnnxBackend.constructor | web/src/onnx-setup.ts:22-39 | The module's start-up: the supported devices for the WebGPU check, default `["wasm"]`, no initialisation promise yet. |
| OnnxSetup.OnnxBackend.DeviceToExecutionProviders | web/src/onnx-setup.ts:47-66 | The rule over the backend's own lists. Its result is a subsequence of the supported devices. |
| OnnxSetup.OnnxBackend.CreateInferenceSession | web/src/onnx-setup.ts:77-93 | The cell is set after the call, and once set it is never overwritten. A first call records its own promise. A rejected first promise makes later calls fail with its error without creating a session. Otherwise a session is created and returned with the config attached, or that creation's error. |
| OnnxSetup.CreateTwice | web/src/onnx-setup.ts:88-89 | After two calls the cell still holds the first call's promise. The second fails with the first's error when the first was rejected. |
| Phonemizer.BaseName | web/src/phonemizer/phonemizer.ts:52 | The base name is the prefix before the first `-`, itself free of `-`. |
| Phonemizer.Restrict | web/src/phonemizer/phonemizer.ts:48-54 | A voice keeps its name and identifier. Its languages are the `filter` of its languages by base name "en", so exactly those, in their order and with their repeats (`FilterMembers`, `FilterAppend`). |
| Phonemizer.CacheVoicesMembers | web/src/phonemizer/phonemizer.ts:46-55 | A cached voice is a backend voice restricted to its supported languages, with at least one left, and every such voice is cached. |
| Phonemizer.CacheVoicesAppend | web/src/phonemizer/phonemizer.ts:46-55 | The cache is built voice by voice, so it keeps backend order. |
| Phonemizer.Add | web/src/phonemizer/phonemizer.ts:60 | `Set.add` keeps what was there as a prefix, and the result holds exactly the old elements and the new one. |
| Phonemizer.IdentifiersMembers | web/src/phonemizer/phonemizer.ts:58-64 | A name is in the identifier set exactly when some voice contributes it. |
| Phonemizer.VoiceNamesMembers | web/src/phonemizer/phonemizer.ts:59-63 | A voice contributes exactly its identifier and its language names. |
| Phonemizer.IdentifiersHaveNoDuplicates | web/src/phonemizer/phonemizer.ts:58 | The identifiers hold each name once, as a `Set` does. |
| Phonemizer.AddVoiceNames | web/src/phonemizer/phonemizer.ts:60-63 | The inner loop adds the voice's identifier and then its language names. |
| Phonemizer.BuildIdentifiers | web/src/phonemizer/phonemizer.ts:58-64 | The nested loops produce exactly `Identifiers` of the cached voices. |
| Phonemizer.InitCache | web/src/phonemizer/phonemizer.ts:45-67 | The cache holds the filtered voices and their identifier set. |
| Phonemizer.ListVoices | web/src/phonemizer/phonemizer.ts:74-83 | No language or "" lists every voice. Otherwise a voice is listed exactly when one of its languages is the base or starts with base + "-". |
| Phonemizer.ListVoicesAppend | web/src/phonemizer/phonemizer.ts:78-82 | The listed voices keep cache order. |
| Phonemizer.ListVoicesByBase | web/src/phonemizer/phonemizer.ts:77 | A regional identifier lists the same voices as its base. |
| Phonemizer.Phonemize | web/src/phonemizer/phonemizer.ts:92-108 | Succeeds exactly when the language, by default "en-us", is an identifier; otherwise the error lists the sorted identifiers. A missing IPA gives `[]`. |
| Phonemizer.PhonemizeAcceptsCachedNames | web/src/phonemizer/phonemizer.ts:95-100 | With the cache from `initCache`, a language is accepted exactly when it is a cached voice's identifier or one of its kept language names. |
| Phonemizer.PhonemizeLines | web/src/phonemizer/phonemizer.ts:103-107 | The lines are the newline split of the IPA with its empty pieces filtered out, in order and with repeats (`NonEmpty` of `Split`). Each is non-empty and newline-free, and a string is among them exactly when it is a non-empty line of the IPA. |
| Phonemizer.PhonemizeKeepsEveryLine | web/src/phonemizer/phonemizer.ts:103-107 | When the IPA has no empty line, joining the result with newlines gives it back. |
| Phonemizer.InvalidLanguageNames | web/src/phonemizer/phonemizer.ts:97-99 | The error message names every identifier at its place in the sorted list. |

## Left out

- Loading is not modelled: model files, `fetch`, JSON parsing and `ort.InferenceSession.create`. Each loading step is a given outcome (`ModelAssets`). `from_pretrained`/`from_local` in `kokoro.ts` are only loaders and are not modelled.
- Inference itself is not modelled: `session.run` and the Hugging Face model and tokenizer are function parameters. The tokenizer's truncation lives inside that parameter.
- Floating point is not modelled: the float32 → int16 conversion with clamping in `audioToBlob` (web/src/tts-worker.ts:42-46), and tensor construction with `Float32Array`/`BigInt64Array`. Samples are already `int16`, and the speed and style values are `real`.
- Asynchrony is reduced to sequential calls: awaiting, the `wasmInitPromise` wait and concurrent requests. The cell keeps only its sequential write-once behaviour.
- `postMessage` is not modelled as a channel: the posted messages are a list. A `Blob` is its bytes.
- `detectWebGPU` and the WebGPU check are booleans.
- The rethrow at the end of `initializeModel` (web/src/tts-worker.ts:85) is a failure after everything is posted, so it is not modelled.
- `TextSplitterStream` segmentation, `VOICES`, `getVoiceData` and `./phonemize` are not part of this model. They are parameters.
- Regular-expression splitting is not modelled: `split(split_pattern)` is a given function.
- The eSpeak-NG worker is not modelled: `set_voice` followed by `synthesize_ipa` is one given function of language and text.
- `list_voices` with `console.table`, `createAudioBuffer` and `playAudio` (Web Audio), the `env` settings and the ONNX environment configuration have no logic to model.
- `pure-kokoro.ts` phonemizes each sentence twice, once in `stream` and once in `generate`. Because `phonemize` is a function here, both calls give the same phonemes.
- JsStrings.SortStrings: orders strings by Dafny character. JavaScript's default `sort` compares UTF-16 code units, and the two orders differ only for characters outside the Basic Multilingual Plane.
- A throwing `phonemize` is not modelled: `./phonemize` is a total function here, so the model cannot produce the error it would raise in `generate` or `stream` (web/src/parrotspeech/pure-kokoro.ts:147, 226; web/src/parrotspeech/kokoro.ts:131, 196).
- The length check of `ort.Tensor` is not modelled. It belongs to the inference runtime, which is not part of this model. A voice table shorter than `offset + 256` makes the tensor constructor throw (web/src/parrotspeech/pure-kokoro.ts:162, web/src/parrotspeech/kokoro.ts:157). The model instead passes `SelectStyle`'s clamped remainder to the inference call, which may then reject it as a `BackendFailure`.
- Registry ids are assumed non-empty (`VoiceId`), so `voice.at(0)` is always defined.
- KokoroShared.ValidateVoice: the language tag is `voice[0]`, a Unicode scalar value, where `voice.at(0)` gives the first UTF-16 code unit. The two agree whenever the first character lies in the Basic Multilingual Plane, as it does for the ASCII ids of `VOICES`.
- `DEVICE_TO_EXECUTION_PROVIDER_MAPPING` is a plain object, so keys inherited from `Object.prototype` such as `"toString"` give non-null values. `OnnxSetup.ProviderMapping` gives None for them. The code only looks up supported devices, so this is never observed.

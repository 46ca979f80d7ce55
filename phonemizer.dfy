/**
 * The eSpeak-NG phonemizer front end: the backend's voices cut down to the supported
 * languages, the set of language identifiers built from them, the `list_voices` filter, and
 * `phonemize`, which validates the language and returns the non-empty IPA lines. The eSpeak
 * backend itself is a parameter.
 */
module Phonemizer {
  import opened Outcomes
  import opened JsStrings

  datatype Language = Language(name: string, priority: int)

  datatype Voice = Voice(name: string, identifier: string, languages: seq<Language>)

  const SUPPORTED_LANGUAGES: seq<string> := ["en"]

  const DEFAULT_LANGUAGE: string := "en-us"

  /** `name.split("-")[0]`: the name up to its first `-`. */
  function BaseName(name: string): (base: string)
    ensures base <= name && '-' !in base
    ensures |base| < |name| ==> name[|base|] == '-'
  {
    SplitFirstPiece(name, '-');
    Split(name, '-')[0]
  }

  /** Order-keeping `filter`. */
  function Filter<T(!new)>(s: seq<T>, keep: T -> bool): seq<T>
    decreases |s|
  {
    if s == [] then [] else (if keep(s[0]) then [s[0]] else []) + Filter(s[1..], keep)
  }

  lemma {:induction false} FilterMembers<T(!new)>(s: seq<T>, keep: T -> bool, x: T)
    ensures x in Filter(s, keep) <==> x in s && keep(x)
    decreases |s|
  {
    if s != [] {
      FilterMembers(s[1..], keep, x);
      assert s == [s[0]] + s[1..];
    }
  }

  lemma {:induction false} FilterAppend<T(!new)>(a: seq<T>, b: seq<T>, keep: T -> bool)
    ensures Filter(a + b, keep) == Filter(a, keep) + Filter(b, keep)
    decreases |a|
  {
    if a == [] {
      assert a + b == b;
    } else {
      var head := if keep(a[0]) then [a[0]] else [];
      assert (a + b)[0] == a[0];
      assert (a + b)[1..] == a[1..] + b;
      FilterAppend(a[1..], b, keep);
      ConcatAssoc(head, Filter(a[1..], keep), Filter(b, keep));
    }
  }

  lemma ConcatAssoc<T>(x: seq<T>, y: seq<T>, z: seq<T>)
    ensures x + (y + z) == (x + y) + z
  {
  }

  // ---------------------------------------------------------------------------
  // the cache
  // ---------------------------------------------------------------------------

  predicate SupportedLanguage(lang: Language) {
    BaseName(lang.name) in SUPPORTED_LANGUAGES
  }

  /** The voice with only its supported languages, in backend order. */
  function Restrict(v: Voice): (r: Voice)
    ensures r.name == v.name && r.identifier == v.identifier
    ensures r.languages == Filter(v.languages, SupportedLanguage)
    ensures forall l :: l in r.languages <==> l in v.languages && SupportedLanguage(l)
  {
    var langs := Filter(v.languages, SupportedLanguage);
    forall l ensures l in langs <==> l in v.languages && SupportedLanguage(l) {
      FilterMembers(v.languages, SupportedLanguage, l);
    }
    Voice(v.name, v.identifier, langs)
  }

  predicate HasLanguages(v: Voice) {
    |v.languages| > 0
  }

  function RestrictAll(backend: seq<Voice>): seq<Voice> {
    seq(|backend|, i requires 0 <= i < |backend| => Restrict(backend[i]))
  }

  /** `initCache`'s voices: every backend voice restricted to its supported languages, and
      those left without any dropped. */
  function CacheVoices(backend: seq<Voice>): seq<Voice> {
    Filter(RestrictAll(backend), HasLanguages)
  }

  /** A cached voice is a backend voice with its supported languages, of which it has at least
      one; and every backend voice with a supported language is cached. */
  lemma CacheVoicesMembers(backend: seq<Voice>, w: Voice)
    ensures w in CacheVoices(backend) <==>
              HasLanguages(w) && exists i :: 0 <= i < |backend| && w == Restrict(backend[i])
    ensures w in CacheVoices(backend) ==> forall l :: l in w.languages ==> SupportedLanguage(l)
  {
    FilterMembers(RestrictAll(backend), HasLanguages, w);
    if w in RestrictAll(backend) {
      var i :| 0 <= i < |backend| && RestrictAll(backend)[i] == w;
      assert w == Restrict(backend[i]);
    }
    if exists i :: 0 <= i < |backend| && w == Restrict(backend[i]) {
      var i :| 0 <= i < |backend| && w == Restrict(backend[i]);
      assert RestrictAll(backend)[i] == w;
    }
  }

  /** The cache is built voice by voice, so backend order is kept. */
  lemma CacheVoicesAppend(a: seq<Voice>, b: seq<Voice>)
    ensures CacheVoices(a + b) == CacheVoices(a) + CacheVoices(b)
  {
    assert RestrictAll(a + b) == RestrictAll(a) + RestrictAll(b);
    FilterAppend(RestrictAll(a), RestrictAll(b), HasLanguages);
  }

  /** `set.add(x)` on a set kept as its elements in insertion order. */
  function Add(s: seq<string>, x: string): (r: seq<string>)
    ensures x in r && s <= r
    ensures forall y :: y in r <==> y in s || y == x
  {
    if x in s then s else s + [x]
  }

  /** Adding `xs` one after another. */
  function AddAll(s: seq<string>, xs: seq<string>): seq<string>
    decreases |xs|
  {
    if xs == [] then s else Add(AddAll(s, xs[..|xs| - 1]), xs[|xs| - 1])
  }

  lemma {:induction false} AddAllMembers(s: seq<string>, xs: seq<string>, y: string)
    ensures y in AddAll(s, xs) <==> y in s || y in xs
    decreases |xs|
  {
    if xs != [] {
      AddAllMembers(s, xs[..|xs| - 1], y);
      assert xs == xs[..|xs| - 1] + [xs[|xs| - 1]];
    }
  }

  /** The names a voice adds: its identifier, then its language names in order. */
  function VoiceNames(v: Voice): (names: seq<string>)
    ensures |names| == |v.languages| + 1 && names[0] == v.identifier
    ensures forall j :: 0 <= j < |v.languages| ==> names[j + 1] == v.languages[j].name
  {
    [v.identifier] + seq(|v.languages|, j requires 0 <= j < |v.languages| => v.languages[j].name)
  }

  /** The `identifiers` set after adding every voice's names, in insertion order. */
  function Identifiers(voices: seq<Voice>): seq<string>
    decreases |voices|
  {
    if voices == [] then []
    else AddAll(Identifiers(voices[..|voices| - 1]), VoiceNames(voices[|voices| - 1]))
  }

  /** Every name the voices contribute, duplicates included, in insertion order. */
  function AllNames(voices: seq<Voice>): seq<string>
    decreases |voices|
  {
    if voices == [] then [] else AllNames(voices[..|voices| - 1]) + VoiceNames(voices[|voices| - 1])
  }

  /** A name is an identifier exactly when some voice contributes it. */
  lemma {:induction false} IdentifiersMembers(voices: seq<Voice>, x: string)
    ensures x in Identifiers(voices) <==> x in AllNames(voices)
    decreases |voices|
  {
    if voices != [] {
      var init := voices[..|voices| - 1];
      IdentifiersMembers(init, x);
      AddAllMembers(Identifiers(init), VoiceNames(voices[|voices| - 1]), x);
    }
  }

  lemma {:induction false} AllNamesMembers(voices: seq<Voice>, x: string)
    ensures x in AllNames(voices) <==> exists v :: v in voices && x in VoiceNames(v)
    decreases |voices|
  {
    if voices != [] {
      var init := voices[..|voices| - 1];
      var last := voices[|voices| - 1];
      AllNamesMembers(init, x);
      assert voices == init + [last];
      if x in AllNames(init) {
        var v :| v in init && x in VoiceNames(v);
        assert v in voices;
      }
      if exists v :: v in voices && x in VoiceNames(v) {
        var v :| v in voices && x in VoiceNames(v);
        assert v in init || v == last;
      }
    }
  }

  /** The names of a voice: its identifier and each of its language names. */
  lemma VoiceNamesMembers(v: Voice, x: string)
    ensures x in VoiceNames(v) <==> x == v.identifier || exists l :: l in v.languages && l.name == x
  {
    if x in VoiceNames(v) && x != v.identifier {
      var k :| 0 <= k < |VoiceNames(v)| && VoiceNames(v)[k] == x;
      assert v.languages[k - 1] in v.languages;
    }
    if x != v.identifier && exists l :: l in v.languages && l.name == x {
      var l :| l in v.languages && l.name == x;
      var j :| 0 <= j < |v.languages| && v.languages[j] == l;
      assert VoiceNames(v)[j + 1] == x;
    }
  }

  predicate NoDuplicates(s: seq<string>) {
    forall i, j :: 0 <= i < j < |s| ==> s[i] != s[j]
  }

  lemma {:induction false} AddAllKeepsNoDuplicates(s: seq<string>, xs: seq<string>)
    requires NoDuplicates(s)
    ensures NoDuplicates(AddAll(s, xs))
    decreases |xs|
  {
    if xs != [] {
      AddAllKeepsNoDuplicates(s, xs[..|xs| - 1]);
    }
  }

  /** Like a `Set`, the identifiers hold each name once. */
  lemma {:induction false} IdentifiersHaveNoDuplicates(voices: seq<Voice>)
    ensures NoDuplicates(Identifiers(voices))
    decreases |voices|
  {
    if voices != [] {
      IdentifiersHaveNoDuplicates(voices[..|voices| - 1]);
      AddAllKeepsNoDuplicates(Identifiers(voices[..|voices| - 1]), VoiceNames(voices[|voices| - 1]));
    }
  }

  /** The inner loop of `initCache`: a voice's identifier, then its language names. */
  method AddVoiceNames(ids: seq<string>, voice: Voice) returns (r: seq<string>)
    ensures r == AddAll(ids, VoiceNames(voice))
  {
    ghost var names := VoiceNames(voice);
    r := Add(ids, voice.identifier);
    assert names[..1][..0] == [];
    var j := 0;
    while j < |voice.languages|
      invariant 0 <= j <= |voice.languages|
      invariant r == AddAll(ids, names[..j + 1])
    {
      r := Add(r, voice.languages[j].name);
      assert names[..j + 2][..j + 1] == names[..j + 1];
      j := j + 1;
    }
    assert names[..j + 1] == names;
  }

  /** The identifier loops of `initCache`, over the cached voices in order. */
  method BuildIdentifiers(voices: seq<Voice>) returns (ids: seq<string>)
    ensures ids == Identifiers(voices)
  {
    ids := [];
    var i := 0;
    while i < |voices|
      invariant 0 <= i <= |voices|
      invariant ids == Identifiers(voices[..i])
    {
      ids := AddVoiceNames(ids, voices[i]);
      assert voices[..i + 1][..i] == voices[..i];
      i := i + 1;
    }
    assert voices[..i] == voices;
  }

  /** The result of `initCache`. */
  datatype Cache = Cache(voices: seq<Voice>, identifiers: seq<string>)

  /** `initCache` over the voices the backend lists. */
  method InitCache(backend: seq<Voice>) returns (cache: Cache)
    ensures cache.voices == CacheVoices(backend)
    ensures cache.identifiers == Identifiers(cache.voices)
  {
    var voices := CacheVoices(backend);
    var identifiers := BuildIdentifiers(voices);
    cache := Cache(voices, identifiers);
  }

  // ---------------------------------------------------------------------------
  // list_voices
  // ---------------------------------------------------------------------------

  /** Whether `voice` speaks `base` or one of its regional variants. */
  predicate SpeaksBase(voice: Voice, base: string) {
    exists l :: l in voice.languages && (l.name == base || StartsWith(l.name, base + "-"))
  }

  /** `list_voices(language)`: every voice without a language, otherwise those speaking the
      language's base name, in cache order. */
  function ListVoices(voices: seq<Voice>, language: Option<string>): (r: seq<Voice>)
    ensures language.None? || language == Some("") ==> r == voices
    ensures language.Some? && language.value != "" ==>
              forall v :: v in r <==> v in voices && SpeaksBase(v, BaseName(language.value))
  {
    if language.None? || language.value == "" then voices
    else
      var base := BaseName(language.value);
      var keep := v => SpeaksBase(v, base);
      forall v ensures v in Filter(voices, keep) <==> v in voices && SpeaksBase(v, base) {
        FilterMembers(voices, keep, v);
      }
      Filter(voices, keep)
  }

  /** The filter goes voice by voice, so the listed voices keep cache order. */
  lemma ListVoicesAppend(a: seq<Voice>, b: seq<Voice>, language: Option<string>)
    ensures ListVoices(a + b, language) == ListVoices(a, language) + ListVoices(b, language)
  {
    if language.Some? && language.value != "" {
      var base := BaseName(language.value);
      FilterAppend(a, b, v => SpeaksBase(v, base));
    }
  }

  /** The base name ignores the region: "en-us" and "en-gb" list the same voices as "en". */
  lemma ListVoicesByBase(voices: seq<Voice>, base: string, region: string)
    requires base != "" && '-' !in base
    ensures ListVoices(voices, Some(base + "-" + region)) == ListVoices(voices, Some(base))
  {
    SplitWithoutSeparator(base, '-');
    SplitAfterPiece(base, '-', region);
    assert base + "-" + region == base + ['-'] + region;
  }

  // ---------------------------------------------------------------------------
  // phonemize
  // ---------------------------------------------------------------------------

  /** `worker.set_voice(language)` followed by `worker.synthesize_ipa(text).ipa`. */
  type Synthesize = (string, string) -> Option<string>

  const INVALID_OPEN: string := "Invalid language identifier: \""
  const INVALID_MIDDLE: string := "\". Should be one of: "

  function InvalidLanguagePrefix(language: string): string {
    INVALID_OPEN + language + INVALID_MIDDLE
  }

  function InvalidLanguageMessage(language: string, identifiers: seq<string>): string {
    InvalidLanguagePrefix(language) + Join(SortStrings(identifiers), ", ") + "."
  }

  /** `phonemize(text, language)` with the default language "en-us": an identifier the cache
      does not know is an error that lists the known ones. */
  function Phonemize(cache: Cache, text: string, language: Option<string>, synthesize: Synthesize)
    : (r: Result<seq<string>, string>)
    ensures r.Ok? <==> language.GetOr(DEFAULT_LANGUAGE) in cache.identifiers
    ensures r.Err? ==> r.error == InvalidLanguageMessage(language.GetOr(DEFAULT_LANGUAGE), cache.identifiers)
    ensures r.Ok? && synthesize(language.GetOr(DEFAULT_LANGUAGE), text).None? ==> r.value == []
  {
    var lang := language.GetOr(DEFAULT_LANGUAGE);
    if lang !in cache.identifiers then Err(InvalidLanguageMessage(lang, cache.identifiers))
    else
      match synthesize(lang, text)
      case None => Ok([])
      case Some(ipa) => Ok(NonEmpty(Split(ipa, '\n')))
  }

  /** With a cache from `initCache`, `phonemize` accepts exactly the identifier of a cached
      voice or the name of one of its supported languages. */
  lemma PhonemizeAcceptsCachedNames(backend: seq<Voice>, text: string, language: Option<string>, synthesize: Synthesize)
    ensures var cache := Cache(CacheVoices(backend), Identifiers(CacheVoices(backend)));
            var lang := language.GetOr(DEFAULT_LANGUAGE);
            Phonemize(cache, text, language, synthesize).Ok? <==>
              exists v :: v in cache.voices && (lang == v.identifier || exists l :: l in v.languages && l.name == lang)
  {
    var voices := CacheVoices(backend);
    var lang := language.GetOr(DEFAULT_LANGUAGE);
    IdentifiersMembers(voices, lang);
    AllNamesMembers(voices, lang);
    if lang in Identifiers(voices) {
      var v :| v in voices && lang in VoiceNames(v);
      VoiceNamesMembers(v, lang);
    }
    if exists v :: v in voices && (lang == v.identifier || exists l :: l in v.languages && l.name == lang) {
      var v :| v in voices && (lang == v.identifier || exists l :: l in v.languages && l.name == lang);
      VoiceNamesMembers(v, lang);
    }
  }

  /** The returned lines are the non-empty lines of the IPA text, in order and with repeats:
      the newline split with its empty pieces filtered out. */
  lemma PhonemizeLines(cache: Cache, text: string, language: Option<string>, synthesize: Synthesize)
    requires language.GetOr(DEFAULT_LANGUAGE) in cache.identifiers
    requires synthesize(language.GetOr(DEFAULT_LANGUAGE), text).Some?
    ensures var lines := Phonemize(cache, text, language, synthesize).value;
            var ipa := synthesize(language.GetOr(DEFAULT_LANGUAGE), text).value;
            && lines == NonEmpty(Split(ipa, '\n'))
            && (forall i :: 0 <= i < |lines| ==> |lines[i]| > 0 && '\n' !in lines[i])
            && (forall x :: x in lines <==> x in Split(ipa, '\n') && |x| > 0)
  {
    var lines := Phonemize(cache, text, language, synthesize).value;
    var ipa := synthesize(language.GetOr(DEFAULT_LANGUAGE), text).value;
    assert lines == NonEmpty(Split(ipa, '\n'));
    forall i | 0 <= i < |lines| ensures '\n' !in lines[i] {
      assert lines[i] in Split(ipa, '\n');
    }
  }

  /** Joining the returned lines with newlines gives back the IPA text when it has no empty
      line: only empty lines are dropped. */
  lemma PhonemizeKeepsEveryLine(cache: Cache, text: string, language: Option<string>, synthesize: Synthesize)
    requires language.GetOr(DEFAULT_LANGUAGE) in cache.identifiers
    requires synthesize(language.GetOr(DEFAULT_LANGUAGE), text).Some?
    requires var ipa := synthesize(language.GetOr(DEFAULT_LANGUAGE), text).value;
             forall i :: 0 <= i < |Split(ipa, '\n')| ==> |Split(ipa, '\n')[i]| > 0
    ensures Join(Phonemize(cache, text, language, synthesize).value, "\n")
         == synthesize(language.GetOr(DEFAULT_LANGUAGE), text).value
  {
    var ipa := synthesize(language.GetOr(DEFAULT_LANGUAGE), text).value;
    NonEmptyOfNonEmpty(Split(ipa, '\n'));
    JoinSplit(ipa, '\n');
  }

  lemma {:induction false} NonEmptyOfNonEmpty(pieces: seq<string>)
    requires forall i :: 0 <= i < |pieces| ==> |pieces[i]| > 0
    ensures NonEmpty(pieces) == pieces
    decreases |pieces|
  {
    if pieces != [] {
      NonEmptyOfNonEmpty(pieces[1..]);
    }
  }

  /** The error names every known identifier, at its place in the sorted list. */
  lemma InvalidLanguageNames(language: string, identifiers: seq<string>, i: nat)
    requires i < |identifiers|
    ensures |SortStrings(identifiers)| == |identifiers|
    ensures OccursAt(SortStrings(identifiers)[i], InvalidLanguageMessage(language, identifiers),
                     |InvalidLanguagePrefix(language)| + JoinOffset(SortStrings(identifiers), ", ", i))
  {
    SortKeepsLength(identifiers);
    ListedWithin(InvalidLanguagePrefix(language), SortStrings(identifiers), i);
  }

  lemma SortKeepsLength(identifiers: seq<string>)
    ensures |SortStrings(identifiers)| == |identifiers|
  {
    var sorted := SortStrings(identifiers);
    assert |sorted| == |multiset(sorted)|;
    assert |identifiers| == |multiset(identifiers)|;
  }

  lemma ListedWithin(prefix: string, parts: seq<string>, i: nat)
    requires i < |parts|
    ensures OccursAt(parts[i], prefix + Join(parts, ", ") + ".", |prefix| + JoinOffset(parts, ", ", i))
  {
    JoinMentionsEvery(parts, ", ", i);
    OccursAtWithin(parts[i], Join(parts, ", "), JoinOffset(parts, ", ", i), prefix, ".");
  }
}

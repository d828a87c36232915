/**
 * The Express server's two cached endpoints (backend/server.js): POST /api/detect-tone
 * and POST /api/tone. Each handler validates its body, derives a cache key, answers a
 * live truthy cache entry with `cached: true`, and otherwise consults the upstream model,
 * stores what it computed and answers with `cached: false`.
 *
 * `DetectTone` and `AdjustTone` state a request's effect on the cache contents as
 * functions; `HandleDetectTone` and `HandleAdjustTone` carry it out on a `Cache` object.
 */
module ToneServer {
  import opened Options
  import opened JsonValue
  import opened AsciiText
  import opened ToneApi
  import opened ResponseCache

  const DetectTextRequired := "Text is required for tone detection"
  const RewriteFieldsRequired := "Missing required fields: text, formality, emotion"

  /** JavaScript's `!field` on a body field that is absent or a string. */
  predicate Falsy(field: Option<string>) {
    field.None? || field.value == []
  }

  /** `!text || text.trim().length === 0` */
  predicate DetectTextRejected(text: Option<string>) {
    Falsy(text) || |Trim(text.value)| == 0
  }

  /** `!text || !formality || !emotion` */
  predicate RewriteRejected(text: Option<string>, formality: Option<string>, emotion: Option<string>) {
    Falsy(text) || Falsy(formality) || Falsy(emotion)
  }

  /** Detection is refused exactly for a missing or whitespace-only text. */
  lemma DetectTextRejectedIffBlank(text: Option<string>)
    ensures DetectTextRejected(text) <==> text.None? || AllSpace(text.value)
  {
  }

  /** Rewriting does not trim: a whitespace-only text passes validation. */
  lemma RewriteAcceptsBlankText()
    ensures !RewriteRejected(Some(" "), Some("Formal"), Some("Polite"))
    ensures DetectTextRejected(Some(" "))
  {
    assert AllSpace(" ");
  }

  // ---------------------------------------------------------------- cache keys

  /** `detect-${text}` */
  function DetectKey(text: string): (key: string)
    ensures |key| == |text| + 7 && key[..7] == "detect-" && key[7..] == text
  {
    "detect-" + text
  }

  /** `${text}-${formality}-${emotion}` */
  function RewriteKey(text: string, formality: string, emotion: string): (key: string)
    ensures |key| == |text| + |formality| + |emotion| + 2
    ensures key[..|text|] == text && key[|key| - |emotion|..] == emotion
  {
    text + "-" + formality + "-" + emotion
  }

  lemma DetectKeyInjective(a: string, b: string)
    ensures DetectKey(a) == DetectKey(b) <==> a == b
  {
    if DetectKey(a) == DetectKey(b) {
      assert a == DetectKey(a)[7..];
    }
  }

  /** Two rewrite requests differing only in emotion get different keys. */
  lemma RewriteKeySeparatesEmotion(text: string, formality: string, e1: string, e2: string)
    ensures RewriteKey(text, formality, e1) == RewriteKey(text, formality, e2) <==> e1 == e2
  {
    var k1, k2 := RewriteKey(text, formality, e1), RewriteKey(text, formality, e2);
    if k1 == k2 {
      var n := |text| + |formality| + 2;
      assert k1[n..] == e1;
      assert k2[n..] == e2;
    }
  }

  /** Two rewrite requests differing only in formality get different keys. */
  lemma RewriteKeySeparatesFormality(text: string, f1: string, f2: string, emotion: string)
    ensures RewriteKey(text, f1, emotion) == RewriteKey(text, f2, emotion) <==> f1 == f2
  {
    var k1, k2 := RewriteKey(text, f1, emotion), RewriteKey(text, f2, emotion);
    if k1 == k2 {
      var n := |text| + 1;
      assert k1[n..|k1| - |emotion| - 1] == f1;
      assert k2[n..|k2| - |emotion| - 1] == f2;
    }
  }

  /** Two rewrite requests differing only in text get different keys. */
  lemma RewriteKeySeparatesText(t1: string, t2: string, formality: string, emotion: string)
    ensures RewriteKey(t1, formality, emotion) == RewriteKey(t2, formality, emotion) <==> t1 == t2
  {
    var k1, k2 := RewriteKey(t1, formality, emotion), RewriteKey(t2, formality, emotion);
    if k1 == k2 {
      assert k1[..|t1|] == t1;
      assert k2[..|t2|] == t2;
    }
  }

  /** Plain concatenation does collide when a dash moves between fields... */
  lemma RewriteKeysCollide()
    ensures RewriteKey("a-b", "c", "d") == RewriteKey("a", "b-c", "d")
  {
  }

  /** ...and a detection key can equal a rewrite key, since both share one cache. */
  lemma DetectAndRewriteKeysCollide()
    ensures DetectKey("a-b") == RewriteKey("detect", "a", "b")
  {
  }

  // ---------------------------------------------------------------- detection

  /** The analysis stored and served when the upstream content does not parse as JSON. */
  const FallbackAnalysis: Analysis :=
    Analysis(Formality.Neutral, Emotion.Neutral, "Unable to detect specific tone", FallbackSuggestions)

  /** The effect of one request on the response, the cache contents, and whether upstream was used. */
  datatype Step = Step(response: Response, entries: map<string, Entry>, upstreamCalled: bool)

  /** POST /api/detect-tone against cache contents `entries` at time `now`. */
  function DetectTone(entries: map<string, Entry>, ttlSeconds: nat, now: int, text: Option<string>, upstream: Upstream): (r: Step)
    ensures !r.upstreamCalled ==> r.entries == entries
    ensures r.response.Failed? ==> r.entries == entries
    ensures r.response.Analysed? ==> r.response.cached == !r.upstreamCalled
    ensures r.entries != entries ==>
      text.Some? && r.response.Analysed? && r.entries == Store(entries, DetectKey(text.value), r.response.analysis, now)
  {
    if DetectTextRejected(text) then Step(Failed(400, DetectTextRequired), entries, false)
    else
      var key := DetectKey(text.value);
      var cached := Lookup(entries, key, now, ttlSeconds);
      if cached.Some? && Truthy(cached.value) then Step(Analysed(cached.value, true), entries, false)
      else
        match upstream
        case Replied(_, parsed) =>
          var analysis := if parsed.Some? then parsed.value else AnalysisJson(FallbackAnalysis);
          Step(Analysed(analysis, false), Store(entries, key, analysis, now), true)
        case Malformed =>
          var analysis := AnalysisJson(FallbackAnalysis);
          Step(Analysed(analysis, false), Store(entries, key, analysis, now), true)
        case _ =>
          Step(FailureResponse(upstream), entries, true)
  }

  /** A missing or blank text is refused with 400 before the cache or the upstream is consulted. */
  lemma DetectRejectsBlankText(entries: map<string, Entry>, ttlSeconds: nat, now: int, text: Option<string>, upstream: Upstream)
    requires text.None? || AllSpace(text.value)
    ensures DetectTone(entries, ttlSeconds, now, text, upstream) == Step(Failed(400, DetectTextRequired), entries, false)
  {
  }

  /** A live truthy entry is served with `cached: true`, whatever the upstream would say. */
  lemma DetectServesLiveEntry(entries: map<string, Entry>, ttlSeconds: nat, now: int, text: string, upstream: Upstream)
    requires !AllSpace(text)
    requires DetectKey(text) in entries && Live(entries[DetectKey(text)], now, ttlSeconds)
    requires Truthy(entries[DetectKey(text)].value)
    ensures DetectTone(entries, ttlSeconds, now, Some(text), upstream)
         == Step(Analysed(entries[DetectKey(text)].value, true), entries, false)
  {
  }

  /**
   * Without a live truthy entry the upstream is consulted; a reply is stored under the
   * detection key and served with `cached: false` (the parsed reply itself when it parses,
   * the fallback otherwise), a failure is mapped and nothing is stored.
   */
  lemma DetectMissConsultsUpstream(entries: map<string, Entry>, ttlSeconds: nat, now: int, text: string, upstream: Upstream)
    requires !AllSpace(text)
    requires Lookup(entries, DetectKey(text), now, ttlSeconds).None?
          || !Truthy(Lookup(entries, DetectKey(text), now, ttlSeconds).value)
    ensures var r := DetectTone(entries, ttlSeconds, now, Some(text), upstream);
      && r.upstreamCalled
      && (upstream.Replied? || upstream.Malformed? ==>
            r.response.Analysed? && !r.response.cached
            && r.entries == Store(entries, DetectKey(text), r.response.analysis, now))
      && (upstream.Replied? && upstream.parsed.Some? ==> r.response == Analysed(upstream.parsed.value, false))
      && (upstream.Malformed? || (upstream.Replied? && upstream.parsed.None?) ==>
            r.response == Analysed(AnalysisJson(FallbackAnalysis), false))
      && (!upstream.Replied? && !upstream.Malformed? ==>
            r.response == FailureResponse(upstream) && r.entries == entries)
  {
  }

  /** A reply that parses is what detection serves and stores, whatever its shape. */
  lemma DetectServesParsedReply(entries: map<string, Entry>, ttlSeconds: nat, now: int, text: string, content: string, j: Json)
    requires !AllSpace(text)
    requires Lookup(entries, DetectKey(text), now, ttlSeconds).None?
          || !Truthy(Lookup(entries, DetectKey(text), now, ttlSeconds).value)
    ensures DetectTone(entries, ttlSeconds, now, Some(text), Replied(content, Some(j)))
         == Step(Analysed(j, false), Store(entries, DetectKey(text), j, now), true)
  {
  }

  /** Content that does not parse (or no content at all) yields the fixed fallback analysis. */
  lemma DetectFallsBackOnParseFailure(entries: map<string, Entry>, ttlSeconds: nat, now: int, text: string, upstream: Upstream)
    requires !AllSpace(text)
    requires Lookup(entries, DetectKey(text), now, ttlSeconds).None?
          || !Truthy(Lookup(entries, DetectKey(text), now, ttlSeconds).value)
    requires upstream.Malformed? || (upstream.Replied? && upstream.parsed.None?)
    ensures var r := DetectTone(entries, ttlSeconds, now, Some(text), upstream);
      && r.response == Analysed(AnalysisJson(FallbackAnalysis), false)
      && r.entries[DetectKey(text)].value == AnalysisJson(FallbackAnalysis)
  {
  }

  /** The fallback reads Neutral/Neutral and suggests Casual/Friendly, Formal/Polite, Neutral/Friendly. */
  lemma FallbackAnalysisShape()
    ensures FallbackAnalysis.formality == Formality.Neutral && FallbackAnalysis.emotion == Emotion.Neutral
    ensures |FallbackAnalysis.suggestions| == 3
    ensures FallbackAnalysis.suggestions[0].formality == Casual && FallbackAnalysis.suggestions[0].emotion == Friendly
    ensures FallbackAnalysis.suggestions[1].formality == Formal && FallbackAnalysis.suggestions[1].emotion == Polite
    ensures FallbackAnalysis.suggestions[2].formality == Formality.Neutral && FallbackAnalysis.suggestions[2].emotion == Friendly
    ensures Truthy(AnalysisJson(FallbackAnalysis))
  {
  }

  /** After a computed detection, repeating it within the time-to-live is a cache hit. */
  lemma RepeatDetectWithinTtlIsCached(entries: map<string, Entry>, ttlSeconds: nat, t1: int, t2: int, text: Option<string>, u1: Upstream, u2: Upstream)
    requires t1 <= t2 <= t1 + ttlSeconds * 1000
    requires var r := DetectTone(entries, ttlSeconds, t1, text, u1);
      r.upstreamCalled && r.response.Analysed? && Truthy(r.response.analysis)
    ensures var r := DetectTone(entries, ttlSeconds, t1, text, u1);
      DetectTone(r.entries, ttlSeconds, t2, text, u2) == Step(Analysed(r.response.analysis, true), r.entries, false)
  {
    var r := DetectTone(entries, ttlSeconds, t1, text, u1);
    assert r.entries == Store(entries, DetectKey(text.value), r.response.analysis, t1);
    LookupWithinTtl(entries, DetectKey(text.value), r.response.analysis, t1, t2, ttlSeconds);
  }

  /** An entry older than the time-to-live is a miss: the analysis is computed again. */
  lemma DetectAfterTtlRecomputes(entries: map<string, Entry>, ttlSeconds: nat, now: int, text: string, upstream: Upstream)
    requires !AllSpace(text)
    requires ttlSeconds > 0
    requires DetectKey(text) in entries && now > entries[DetectKey(text)].storedAt + ttlSeconds * 1000
    ensures DetectTone(entries, ttlSeconds, now, Some(text), upstream).upstreamCalled
  {
  }

  // ---------------------------------------------------------------- rewriting

  /** POST /api/tone against cache contents `entries` at time `now`. */
  function AdjustTone(entries: map<string, Entry>, ttlSeconds: nat, now: int,
                      text: Option<string>, formality: Option<string>, emotion: Option<string>,
                      upstream: Upstream): (r: Step)
    ensures !r.upstreamCalled ==> r.entries == entries
    ensures r.response.Failed? ==> r.entries == entries
    ensures r.response.Rewritten? ==> r.response.cached == !r.upstreamCalled
    ensures r.entries != entries ==>
      text.Some? && formality.Some? && emotion.Some? && r.response.Rewritten?
      && r.entries == Store(entries, RewriteKey(text.value, formality.value, emotion.value), r.response.rewrittenText, now)
  {
    if RewriteRejected(text, formality, emotion) then Step(Failed(400, RewriteFieldsRequired), entries, false)
    else
      var key := RewriteKey(text.value, formality.value, emotion.value);
      var cached := Lookup(entries, key, now, ttlSeconds);
      if cached.Some? && Truthy(cached.value) then Step(Rewritten(cached.value, true), entries, false)
      else
        match upstream
        case Replied(content, _) =>
          var rewritten := JStr(Trim(content));
          Step(Rewritten(rewritten, false), Store(entries, key, rewritten, now), true)
        case _ =>
          Step(FailureResponse(upstream), entries, true)
  }

  /** A request missing text, formality or emotion is refused with 400 before any lookup. */
  lemma AdjustRejectsMissingField(entries: map<string, Entry>, ttlSeconds: nat, now: int,
                                  text: Option<string>, formality: Option<string>, emotion: Option<string>,
                                  upstream: Upstream)
    requires text in {None, Some("")} || formality in {None, Some("")} || emotion in {None, Some("")}
    ensures AdjustTone(entries, ttlSeconds, now, text, formality, emotion, upstream)
         == Step(Failed(400, RewriteFieldsRequired), entries, false)
  {
  }

  /** A live truthy entry under the rewrite key is served with `cached: true`, whatever it holds. */
  lemma AdjustServesLiveEntry(entries: map<string, Entry>, ttlSeconds: nat, now: int,
                              text: string, formality: string, emotion: string, upstream: Upstream)
    requires text != "" && formality != "" && emotion != ""
    requires RewriteKey(text, formality, emotion) in entries
    requires Live(entries[RewriteKey(text, formality, emotion)], now, ttlSeconds)
    requires Truthy(entries[RewriteKey(text, formality, emotion)].value)
    ensures AdjustTone(entries, ttlSeconds, now, Some(text), Some(formality), Some(emotion), upstream)
         == Step(Rewritten(entries[RewriteKey(text, formality, emotion)].value, true), entries, false)
  {
  }

  /**
   * Without a live truthy entry the upstream is consulted; a reply is trimmed, stored under
   * the rewrite key and served with `cached: false`, a failure is mapped and nothing is stored.
   */
  lemma AdjustMissConsultsUpstream(entries: map<string, Entry>, ttlSeconds: nat, now: int,
                                   text: string, formality: string, emotion: string, upstream: Upstream)
    requires text != "" && formality != "" && emotion != ""
    requires Lookup(entries, RewriteKey(text, formality, emotion), now, ttlSeconds).None?
          || !Truthy(Lookup(entries, RewriteKey(text, formality, emotion), now, ttlSeconds).value)
    ensures var r := AdjustTone(entries, ttlSeconds, now, Some(text), Some(formality), Some(emotion), upstream);
      && r.upstreamCalled
      && (upstream.Replied? ==>
            r.response == Rewritten(JStr(Trim(upstream.content)), false)
            && r.entries == Store(entries, RewriteKey(text, formality, emotion), JStr(Trim(upstream.content)), now))
      && (!upstream.Replied? ==> r.response == FailureResponse(upstream) && r.entries == entries)
  {
  }

  /** A new rewrite stores the trimmed reply under the rewrite key and serves it uncached. */
  lemma AdjustMissStoresTrimmedReply(entries: map<string, Entry>, ttlSeconds: nat, now: int,
                                     text: string, formality: string, emotion: string, content: string, parsed: Option<Json>)
    requires text != "" && formality != "" && emotion != ""
    requires Lookup(entries, RewriteKey(text, formality, emotion), now, ttlSeconds).None?
          || !Truthy(Lookup(entries, RewriteKey(text, formality, emotion), now, ttlSeconds).value)
    ensures AdjustTone(entries, ttlSeconds, now, Some(text), Some(formality), Some(emotion), Replied(content, parsed))
         == Step(Rewritten(JStr(Trim(content)), false),
                 Store(entries, RewriteKey(text, formality, emotion), JStr(Trim(content)), now), true)
  {
  }

  /**
   * An empty rewritten text is stored but fails the truthiness test, so an identical
   * request made straight afterwards consults the upstream again.
   */
  lemma BlankRewriteIsNeverServedFromCache(entries: map<string, Entry>, ttlSeconds: nat, now: int,
                                           text: string, formality: string, emotion: string,
                                           content: string, parsed: Option<Json>, next: Upstream)
    requires text != "" && formality != "" && emotion != ""
    requires Lookup(entries, RewriteKey(text, formality, emotion), now, ttlSeconds).None?
          || !Truthy(Lookup(entries, RewriteKey(text, formality, emotion), now, ttlSeconds).value)
    requires AllSpace(content)
    ensures var r := AdjustTone(entries, ttlSeconds, now, Some(text), Some(formality), Some(emotion), Replied(content, parsed));
      AdjustTone(r.entries, ttlSeconds, now, Some(text), Some(formality), Some(emotion), next).upstreamCalled
  {
  }

  /** After a computed non-empty rewrite, repeating it within the time-to-live is a cache hit. */
  lemma RepeatAdjustWithinTtlIsCached(entries: map<string, Entry>, ttlSeconds: nat, t1: int, t2: int,
                                      text: Option<string>, formality: Option<string>, emotion: Option<string>,
                                      u1: Upstream, u2: Upstream)
    requires t1 <= t2 <= t1 + ttlSeconds * 1000
    requires var r := AdjustTone(entries, ttlSeconds, t1, text, formality, emotion, u1);
      r.upstreamCalled && r.response.Rewritten? && Truthy(r.response.rewrittenText)
    ensures var r := AdjustTone(entries, ttlSeconds, t1, text, formality, emotion, u1);
      AdjustTone(r.entries, ttlSeconds, t2, text, formality, emotion, u2)
        == Step(Rewritten(r.response.rewrittenText, true), r.entries, false)
  {
    var r := AdjustTone(entries, ttlSeconds, t1, text, formality, emotion, u1);
    var key := RewriteKey(text.value, formality.value, emotion.value);
    assert r.entries == Store(entries, key, r.response.rewrittenText, t1);
    LookupWithinTtl(entries, key, r.response.rewrittenText, t1, t2, ttlSeconds);
  }

  /** A reply that is not blank is therefore served from the cache for the whole time-to-live. */
  lemma RepeatRewriteOfReplyIsCached(entries: map<string, Entry>, ttlSeconds: nat, t1: int, t2: int,
                                     text: string, formality: string, emotion: string,
                                     content: string, parsed: Option<Json>, next: Upstream)
    requires text != "" && formality != "" && emotion != ""
    requires !AllSpace(content)
    requires t1 <= t2 <= t1 + ttlSeconds * 1000
    requires AdjustTone(entries, ttlSeconds, t1, Some(text), Some(formality), Some(emotion), Replied(content, parsed)).upstreamCalled
    ensures var r := AdjustTone(entries, ttlSeconds, t1, Some(text), Some(formality), Some(emotion), Replied(content, parsed));
      AdjustTone(r.entries, ttlSeconds, t2, Some(text), Some(formality), Some(emotion), next)
        == Step(Rewritten(JStr(Trim(content)), true), r.entries, false)
  {
    RepeatAdjustWithinTtlIsCached(entries, ttlSeconds, t1, t2, Some(text), Some(formality), Some(emotion),
                                  Replied(content, parsed), next);
  }

  /**
   * Rewriting "Hi" as Formal/Polite: a non-blank reply is served with `cached: false`,
   * and an identical request straight afterwards gets the same text with `cached: true`.
   */
  lemma RewriteTwiceIsCached(entries: map<string, Entry>, ttlSeconds: nat, now: int, content: string, parsed: Option<Json>, next: Upstream)
    requires !AllSpace(content)
    requires Lookup(entries, RewriteKey("Hi", "Formal", "Polite"), now, ttlSeconds).None?
    ensures var r := AdjustTone(entries, ttlSeconds, now, Some("Hi"), Some("Formal"), Some("Polite"), Replied(content, parsed));
      && HttpStatus(r.response) == 200 && r.response == Rewritten(JStr(Trim(content)), false)
      && Trim(content) != ""
      && AdjustTone(r.entries, ttlSeconds, now, Some("Hi"), Some("Formal"), Some("Polite"), next).response
         == Rewritten(JStr(Trim(content)), true)
  {
  }

  /**
   * Both endpoints share one cache, so a detection of "a-b" is served, within the
   * time-to-live, as the rewrite of "detect" to formality "a" and emotion "b".
   */
  lemma DetectionServedAsRewrite(entries: map<string, Entry>, ttlSeconds: nat, t1: int, t2: int, u1: Upstream, u2: Upstream)
    requires t1 <= t2 <= t1 + ttlSeconds * 1000
    requires var r := DetectTone(entries, ttlSeconds, t1, Some("a-b"), u1);
      r.upstreamCalled && r.response.Analysed? && Truthy(r.response.analysis)
    ensures var r := DetectTone(entries, ttlSeconds, t1, Some("a-b"), u1);
      AdjustTone(r.entries, ttlSeconds, t2, Some("detect"), Some("a"), Some("b"), u2)
        == Step(Rewritten(r.response.analysis, true), r.entries, false)
  {
    var r := DetectTone(entries, ttlSeconds, t1, Some("a-b"), u1);
    assert RewriteKey("detect", "a", "b") == DetectKey("a-b");
    assert r.entries == Store(entries, DetectKey("a-b"), r.response.analysis, t1);
    LookupWithinTtl(entries, DetectKey("a-b"), r.response.analysis, t1, t2, ttlSeconds);
  }

  // ---------------------------------------------------------------- handlers on the shared cache

  method HandleDetectTone(cache: Cache, text: Option<string>, upstream: Upstream, now: int)
    returns (response: Response, upstreamCalled: bool)
    modifies cache
    ensures Step(response, cache.entries, upstreamCalled) == DetectTone(old(cache.entries), cache.ttlSeconds, now, text, upstream)
  {
    if text.None? || text.value == [] || |Trim(text.value)| == 0 {
      return Failed(400, DetectTextRequired), false;
    }
    var cacheKey := DetectKey(text.value);
    var cachedResponse := cache.Get(cacheKey, now);
    if cachedResponse.Some? && Truthy(cachedResponse.value) {
      return Analysed(cachedResponse.value, true), false;
    }
    upstreamCalled := true;
    var toneAnalysis: Json;
    match upstream {
      case Replied(_, parsed) =>
        toneAnalysis := if parsed.Some? then parsed.value else AnalysisJson(FallbackAnalysis);
      case Malformed =>
        toneAnalysis := AnalysisJson(FallbackAnalysis);
      case _ =>
        return FailureResponse(upstream), true;
    }
    cache.Set(cacheKey, toneAnalysis, now);
    response := Analysed(toneAnalysis, false);
  }

  method HandleAdjustTone(cache: Cache, text: Option<string>, formality: Option<string>, emotion: Option<string>,
                          upstream: Upstream, now: int)
    returns (response: Response, upstreamCalled: bool)
    modifies cache
    ensures Step(response, cache.entries, upstreamCalled)
         == AdjustTone(old(cache.entries), cache.ttlSeconds, now, text, formality, emotion, upstream)
  {
    if text.None? || text.value == [] || formality.None? || formality.value == [] || emotion.None? || emotion.value == [] {
      return Failed(400, RewriteFieldsRequired), false;
    }
    var cacheKey := RewriteKey(text.value, formality.value, emotion.value);
    var cachedResponse := cache.Get(cacheKey, now);
    if cachedResponse.Some? && Truthy(cachedResponse.value) {
      return Rewritten(cachedResponse.value, true), false;
    }
    upstreamCalled := true;
    if !upstream.Replied? {
      return FailureResponse(upstream), true;
    }
    var rewrittenText := JStr(Trim(upstream.content));
    cache.Set(cacheKey, rewrittenText, now);
    response := Rewritten(rewrittenText, false);
  }
}

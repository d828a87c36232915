/**
 * What the Express server (backend/server.js) and the serverless detector
 * (api/detect-tone.js) share: the tone labels, the tone-analysis document, the
 * fixed fallback suggestions, the abstract outcome of the upstream model call,
 * the responses, and the mapping of upstream failures to HTTP statuses.
 */
module ToneApi {
  import opened Options
  import opened JsonValue

  datatype Formality = Casual | Neutral | Formal
  datatype Emotion = Friendly | Neutral | Polite

  function FormalityName(f: Formality): string {
    match f
    case Casual => "Casual"
    case Neutral => "Neutral"
    case Formal => "Formal"
  }

  function EmotionName(e: Emotion): string {
    match e
    case Friendly => "Friendly"
    case Neutral => "Neutral"
    case Polite => "Polite"
  }

  datatype Suggestion = Suggestion(formality: Formality, emotion: Emotion, reason: string)

  /** A tone analysis: `{currentTone: {formality, emotion, description}, suggestions: [...]}`. */
  datatype Analysis = Analysis(
    formality: Formality, emotion: Emotion, description: string, suggestions: seq<Suggestion>)

  /** The three suggestions every fallback analysis carries. */
  const FallbackSuggestions: seq<Suggestion> := [
    Suggestion(Casual, Friendly, "Make it more approachable and conversational"),
    Suggestion(Formal, Polite, "Increase professionalism and respect"),
    Suggestion(Formality.Neutral, Friendly, "Balance between casual and professional")
  ]

  function SuggestionJson(g: Suggestion): Json {
    JObj(map[
      "formality" := JStr(FormalityName(g.formality)),
      "emotion" := JStr(EmotionName(g.emotion)),
      "reason" := JStr(g.reason)])
  }

  function SuggestionsJson(gs: seq<Suggestion>): (items: seq<Json>)
    ensures |items| == |gs|
  {
    if gs == [] then [] else [SuggestionJson(gs[0])] + SuggestionsJson(gs[1..])
  }

  /** The `currentTone` object of an analysis document. */
  function CurrentToneJson(a: Analysis): Json {
    JObj(map[
      "formality" := JStr(FormalityName(a.formality)),
      "emotion" := JStr(EmotionName(a.emotion)),
      "description" := JStr(a.description)])
  }

  /** The document the handlers send and cache for an analysis. */
  function AnalysisJson(a: Analysis): (j: Json)
    ensures j.JObj? && Truthy(j) && j.fields.Keys == {"currentTone", "suggestions"}
    ensures Member(j, "currentTone").Some? && Truthy(Member(j, "currentTone").value)
    ensures Member(j, "suggestions").Some? && Member(j, "suggestions").value.JArr?
    ensures |Member(j, "suggestions").value.items| == |a.suggestions|
  {
    JObj(map["currentTone" := CurrentToneJson(a), "suggestions" := JArr(SuggestionsJson(a.suggestions))])
  }

  // ---------------------------------------------------------------- reading a document back

  function FormalityOf(j: Json): Option<Formality> {
    if j == JStr("Casual") then Some(Casual)
    else if j == JStr("Neutral") then Some(Formality.Neutral)
    else if j == JStr("Formal") then Some(Formal)
    else None
  }

  function EmotionOf(j: Json): Option<Emotion> {
    if j == JStr("Friendly") then Some(Friendly)
    else if j == JStr("Neutral") then Some(Emotion.Neutral)
    else if j == JStr("Polite") then Some(Polite)
    else None
  }

  lemma LabelsRoundTrip(f: Formality, e: Emotion)
    ensures FormalityOf(JStr(FormalityName(f))) == Some(f)
    ensures EmotionOf(JStr(EmotionName(e))) == Some(e)
  {
  }

  /** The suggestion a `{formality, emotion, reason}` object describes, if it is one. */
  function SuggestionOf(j: Json): Option<Suggestion> {
    var f, e, r := Member(j, "formality"), Member(j, "emotion"), Member(j, "reason");
    if f.Some? && e.Some? && r.Some? && FormalityOf(f.value).Some? && EmotionOf(e.value).Some? && r.value.JStr?
    then Some(Suggestion(FormalityOf(f.value).value, EmotionOf(e.value).value, r.value.s))
    else None
  }

  function SuggestionsOf(items: seq<Json>): Option<seq<Suggestion>>
    decreases |items|
  {
    if items == [] then Some([])
    else
      var g, rest := SuggestionOf(items[0]), SuggestionsOf(items[1..]);
      if g.Some? && rest.Some? then Some([g.value] + rest.value) else None
  }

  /** The formality, emotion and description a `currentTone` object describes, if it is one. */
  function ToneOf(t: Json): Option<(Formality, Emotion, string)> {
    var f, e, d := Member(t, "formality"), Member(t, "emotion"), Member(t, "description");
    if f.Some? && e.Some? && d.Some? && FormalityOf(f.value).Some? && EmotionOf(e.value).Some? && d.value.JStr?
    then Some((FormalityOf(f.value).value, EmotionOf(e.value).value, d.value.s))
    else None
  }

  /** The analysis a `{currentTone, suggestions}` document describes, if it is one. */
  function AnalysisOf(j: Json): Option<Analysis> {
    var t, s := Member(j, "currentTone"), Member(j, "suggestions");
    if t.Some? && s.Some? && s.value.JArr? then
      var tone, gs := ToneOf(t.value), SuggestionsOf(s.value.items);
      if tone.Some? && gs.Some? then Some(Analysis(tone.value.0, tone.value.1, tone.value.2, gs.value)) else None
    else None
  }

  lemma SuggestionRoundTrip(g: Suggestion)
    ensures SuggestionOf(SuggestionJson(g)) == Some(g)
  {
    LabelsRoundTrip(g.formality, g.emotion);
  }

  lemma {:induction false} SuggestionsRoundTrip(gs: seq<Suggestion>)
    ensures SuggestionsOf(SuggestionsJson(gs)) == Some(gs)
    decreases |gs|
  {
    if gs != [] {
      var items := SuggestionsJson(gs);
      assert items[0] == SuggestionJson(gs[0]) && items[1..] == SuggestionsJson(gs[1..]);
      SuggestionRoundTrip(gs[0]);
      SuggestionsRoundTrip(gs[1..]);
      assert [gs[0]] + gs[1..] == gs;
    }
  }

  lemma ToneRoundTrip(a: Analysis)
    ensures ToneOf(CurrentToneJson(a)) == Some((a.formality, a.emotion, a.description))
  {
    LabelsRoundTrip(a.formality, a.emotion);
  }

  /** The document sent for an analysis describes exactly that analysis: no field is lost. */
  lemma AnalysisRoundTrip(a: Analysis)
    ensures AnalysisOf(AnalysisJson(a)) == Some(a)
  {
    var j := AnalysisJson(a);
    assert Member(j, "currentTone") == Some(CurrentToneJson(a));
    assert Member(j, "suggestions") == Some(JArr(SuggestionsJson(a.suggestions)));
    ToneRoundTrip(a);
    SuggestionsRoundTrip(a.suggestions);
  }

  /**
   * The outcome of the upstream chat-completion call, as seen by a handler.
   * Replied: a 2xx reply whose `choices[0].message.content` is the string `content`;
   *          `parsed` is what `JSON.parse` makes of the trimmed content (None: it throws).
   * Malformed: a 2xx reply without a string at `choices[0].message.content`.
   * Rejected: the upstream answered with an error status (`error.response`).
   * Unreachable: the request went out and no response came back (`error.request`).
   * Faulted: any other failure before a request was made.
   */
  datatype Upstream =
    | Replied(content: string, parsed: Option<Json>)
    | Malformed
    | Rejected(status: int)
    | Unreachable
    | Faulted

  /** A handler's reply: status and JSON body (details payloads are not modelled). */
  datatype Response =
    | Ended(status: int)                        // res.status(s).end(), no body
    | Analysed(analysis: Json, cached: bool)    // 200 {...analysis, cached}
    | Rewritten(rewrittenText: Json, cached: bool)  // 200 {rewrittenText, cached}
    | Failed(status: int, error: string)        // res.status(s).json({error})

  function HttpStatus(r: Response): int {
    match r
    case Ended(status) => status
    case Analysed(_, _) => 200
    case Rewritten(_, _) => 200
    case Failed(status, _) => status
  }

  const UpstreamError := "Mistral AI API error"
  const NetworkError := "Network error - unable to reach Mistral AI"
  const InternalError := "Internal server error"

  /**
   * The catch block shared by every handler: an upstream error status is passed
   * through, a missing response is a network error, anything else is internal.
   */
  function FailureResponse(u: Upstream): (r: Response)
    requires !u.Replied?
    ensures r.Failed?
    ensures u.Rejected? ==> HttpStatus(r) == u.status
    ensures u.Rejected? <==> r.error == UpstreamError
    ensures u.Unreachable? <==> r.error == NetworkError
    ensures !u.Rejected? ==> HttpStatus(r) == 500
    ensures !u.Rejected? && !u.Unreachable? ==> r == Failed(500, InternalError)
    ensures r.error in {UpstreamError, NetworkError, InternalError}
  {
    match u
    case Rejected(status) => Failed(status, UpstreamError)
    case Unreachable => Failed(500, NetworkError)
    case _ => Failed(500, InternalError)
  }
}

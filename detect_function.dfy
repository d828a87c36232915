/**
 * The serverless tone detector (api/detect-tone.js): method and body validation, the
 * structure check on the upstream JSON, and the keyword classifier that labels the
 * upstream text when that check fails. This handler has no cache.
 */
module DetectFunction {
  import opened Options
  import opened JsonValue
  import opened AsciiText
  import opened ToneApi

  /** The request as the handler reads it: `req.method` and `req.body.text`. */
  datatype Request = Request(verb: string, text: Option<string>)

  const MethodNotAllowed := "Method not allowed"
  const TextRequired := "Text is required for tone detection"

  /** `!text || text.trim().length === 0` */
  predicate TextRejected(text: Option<string>) {
    text.None? || text.value == [] || |Trim(text.value)| == 0
  }

  /** The parsed reply is used only when `currentTone` is truthy and `suggestions` is an array. */
  predicate WellShaped(j: Json) {
    && Member(j, "currentTone").Some? && Truthy(Member(j, "currentTone").value)
    && Member(j, "suggestions").Some? && Truthy(Member(j, "suggestions").value)
    && Member(j, "suggestions").value.JArr?
  }

  /** Some word of `words` occurs in `content`. */
  predicate ContainsAny(content: string, words: seq<string>) {
    exists w | w in words :: Contains(content, w)
  }

  const CasualWords: seq<string> := ["casual", "informal", "relaxed"]
  const FormalWords: seq<string> := ["formal", "professional", "business"]
  const FriendlyWords: seq<string> := ["friendly", "warm", "approachable"]
  const PoliteWords: seq<string> := ["polite", "respectful", "courteous"]

  /** The formality read off the upstream text, casual keywords taking priority. */
  function DetectFormality(content: string): (f: Formality)
    ensures f == Casual <==> ContainsAny(ToLower(content), CasualWords)
    ensures f == Formal <==> !ContainsAny(ToLower(content), CasualWords) && ContainsAny(ToLower(content), FormalWords)
  {
    var lower := ToLower(content);
    if Contains(lower, "casual") || Contains(lower, "informal") || Contains(lower, "relaxed") then Casual
    else if Contains(lower, "formal") || Contains(lower, "professional") || Contains(lower, "business") then Formal
    else Formality.Neutral
  }

  /** The emotion read off the upstream text, friendly keywords taking priority. */
  function DetectEmotion(content: string): (e: Emotion)
    ensures e == Friendly <==> ContainsAny(ToLower(content), FriendlyWords)
    ensures e == Polite <==> !ContainsAny(ToLower(content), FriendlyWords) && ContainsAny(ToLower(content), PoliteWords)
  {
    var lower := ToLower(content);
    if Contains(lower, "friendly") || Contains(lower, "warm") || Contains(lower, "approachable") then Friendly
    else if Contains(lower, "polite") || Contains(lower, "respectful") || Contains(lower, "courteous") then Polite
    else Emotion.Neutral
  }

  /** `AI detected ${formality.toLowerCase()} formality with ${emotion.toLowerCase()} emotion.` */
  function Description(f: Formality, e: Emotion): string {
    "AI detected " + ToLower(FormalityName(f)) + " formality with " + ToLower(EmotionName(e)) + " emotion."
  }

  /** The fallback analysis built from the raw upstream text. */
  function KeywordAnalysis(content: string): (a: Analysis)
    ensures a.formality == DetectFormality(content) && a.emotion == DetectEmotion(content)
    ensures a.suggestions == FallbackSuggestions
    ensures a.description == Description(a.formality, a.emotion)
  {
    var f := DetectFormality(content);
    var e := DetectEmotion(content);
    Analysis(f, e, Description(f, e), FallbackSuggestions)
  }

  /** The whole handler: its reply to one request, given what the upstream call returns. */
  function Handle(req: Request, upstream: Upstream): (r: Response)
    ensures req.verb == "OPTIONS" ==> r == Ended(200)
    ensures req.verb != "OPTIONS" && req.verb != "POST" ==> r == Failed(405, MethodNotAllowed)
    ensures req.verb == "POST" && TextRejected(req.text) ==> r == Failed(400, TextRequired)
    ensures r.Analysed? ==> !r.cached && upstream.Replied?
    ensures req.verb == "POST" && !TextRejected(req.text) && !upstream.Replied? ==> r == FailureResponse(upstream)
  {
    if req.verb == "OPTIONS" then Ended(200)
    else if req.verb != "POST" then Failed(405, MethodNotAllowed)
    else if TextRejected(req.text) then Failed(400, TextRequired)
    else
      match upstream
      case Replied(content, parsed) =>
        if parsed.Some? && WellShaped(parsed.value) then Analysed(parsed.value, false)
        else Analysed(AnalysisJson(KeywordAnalysis(content)), false)
      case _ =>
        FailureResponse(upstream)
  }

  // ---------------------------------------------------------------- handler properties

  /** OPTIONS, wrong methods and blank texts are answered without depending on the upstream. */
  lemma RefusalsPrecedeUpstream(req: Request, u1: Upstream, u2: Upstream)
    requires req.verb != "POST" || TextRejected(req.text)
    ensures Handle(req, u1) == Handle(req, u2)
    ensures HttpStatus(Handle(req, u1)) in {200, 405, 400}
  {
  }

  /** A reply that parses and has the expected structure is passed on as it is. */
  lemma WellShapedReplyIsPassedOn(text: string, content: string, j: Json)
    requires !AllSpace(text) && WellShaped(j)
    ensures Handle(Request("POST", Some(text)), Replied(content, Some(j))) == Analysed(j, false)
  {
  }

  /** Any other reply is classified by keywords and carries the three fixed suggestions. */
  lemma IllShapedReplyIsClassified(text: string, content: string, parsed: Option<Json>)
    requires !AllSpace(text)
    requires parsed.None? || !WellShaped(parsed.value)
    ensures var r := Handle(Request("POST", Some(text)), Replied(content, parsed));
      && r == Analysed(AnalysisJson(KeywordAnalysis(content)), false)
      && KeywordAnalysis(content).suggestions == FallbackSuggestions
      && |FallbackSuggestions| == 3
  {
  }

  /** Values that are not objects, such as `null`, fail the structure check. */
  lemma NonObjectsAreIllShaped(j: Json)
    requires !j.JObj?
    ensures !WellShaped(j)
  {
  }

  /** The fallback document itself passes the structure check. */
  lemma KeywordAnalysisIsWellShaped(content: string)
    ensures WellShaped(AnalysisJson(KeywordAnalysis(content)))
  {
  }

  /** A reply without content is an internal error; upstream errors are mapped as elsewhere. */
  lemma UpstreamFailuresAreMapped(text: string, upstream: Upstream)
    requires !AllSpace(text) && !upstream.Replied?
    ensures Handle(Request("POST", Some(text)), upstream) == FailureResponse(upstream)
    ensures upstream.Malformed? ==> Handle(Request("POST", Some(text)), upstream) == Failed(500, InternalError)
  {
  }

  // ---------------------------------------------------------------- classifier properties

  /** "informal" contains "formal", yet a text saying "informal" is always Casual. */
  lemma InformalIsNeverFormal(content: string)
    requires Contains(ToLower(content), "informal")
    ensures Contains(ToLower(content), "formal")
    ensures DetectFormality(content) == Casual
  {
    ContainsPiece(ToLower(content), "informal", 2, 8);
    assert "informal"[2..8] == "formal";
  }

  /** A keyword written in any letter case still matches. */
  lemma KeywordMatchIgnoresCase(content: string, word: string, i: nat)
    requires i + |word| <= |content|
    requires ToLower(content[i..i + |word|]) == word
    ensures Contains(ToLower(content), word)
  {
    ToLowerSlice(content, i, i + |word|);
    assert OccursAt(ToLower(content), word, i);
  }

  /** Classification depends on the text only up to letter case. */
  lemma ClassificationIgnoresCase(content: string)
    ensures DetectFormality(ToLower(content)) == DetectFormality(content)
    ensures DetectEmotion(ToLower(content)) == DetectEmotion(content)
  {
    ToLowerIdempotent(content);
  }

  /** "CASUAL and WARM" reads as Casual and Friendly. */
  lemma UpperCaseExample()
    ensures DetectFormality("CASUAL and WARM") == Casual
    ensures DetectEmotion("CASUAL and WARM") == Friendly
  {
    KeywordMatchIgnoresCase("CASUAL and WARM", "casual", 0);
    KeywordMatchIgnoresCase("CASUAL and WARM", "warm", 11);
  }

  /** Text without any keyword is Neutral on both axes. */
  lemma NoKeywordExample()
    ensures DetectFormality("ok") == Formality.Neutral
    ensures DetectEmotion("ok") == Emotion.Neutral
  {
    assert ToLower("ok") == "ok";
    assert !Contains("ok", "casual") && !Contains("ok", "informal") && !Contains("ok", "relaxed");
    assert !Contains("ok", "formal") && !Contains("ok", "professional") && !Contains("ok", "business");
    assert !Contains("ok", "friendly") && !Contains("ok", "warm") && !Contains("ok", "approachable");
    assert !Contains("ok", "polite") && !Contains("ok", "respectful") && !Contains("ok", "courteous");
  }

  /** The description spells the chosen labels in lower case. */
  lemma DescriptionExample()
    ensures Description(Casual, Friendly) == "AI detected casual formality with friendly emotion."
  {
    var casual, friendly := ToLower("Casual"), ToLower("Friendly");
    assert casual == "casual";
    assert friendly == "friendly";
    var front := "AI detected " + casual;
    assert front == "AI detected casual";
    var middle := front + " formality with ";
    assert middle == "AI detected casual formality with ";
    var back := middle + friendly;
    assert back == "AI detected casual formality with friendly";
    assert back + " emotion." == "AI detected casual formality with friendly emotion.";
  }
}

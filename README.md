# Tone picker: a verified model of its core logic

This project models the logic of the tone-picker application in Dafny and proves
properties of that model. The application lets a user write a text, have a language
model rewrite it in a chosen formality and emotion, and have the tone of the text
detected. Four parts hold all the logic worth stating precisely:

- **The client's edit history** (`toneReducer`). It is a total transition function over
  `past`, `present` and `future` stacks of text snapshots and the `loading`, `error` and
  `lastTone` fields, with the nine action types SET_TEXT, APPLY_TONE_CHANGE, UNDO, REDO,
  RESET, SET_LOADING, SET_ERROR, CLEAR_ERROR and LOAD_HISTORY. It is modelled as the pure
  function `ToneHistory.Reduce` over a `State` and an `Action` datatype. The lemmas cover
  each action's effect, undo/redo inverses, discarding of the redo branch, reset to
  the oldest snapshot, and the round trip between LOAD_HISTORY and the persisted
  `past ++ [present] ++ future` list.
- **The Express server's two cached endpoints** (POST /api/detect-tone and POST /api/tone).
  Each validates its body and derives a cache key (`detect-${text}`, or
  `${text}-${formality}-${emotion}`). A live, truthy cache entry is answered with
  `cached: true`. Otherwise the handler consults the upstream model, stores the result and
  answers with `cached: false`. Detection falls back to a fixed analysis when the reply does
  not parse. Upstream errors map to HTTP statuses.
  - The cache is the class `ResponseCache.Cache`: a map from key to (value, time stored)
    with the 300-second time-to-live and an explicit millisecond clock.
  - `ToneServer.DetectTone` and `ToneServer.AdjustTone` state a request's effect as
    functions of the cache contents.
  - The methods `HandleDetectTone` and `HandleAdjustTone` carry out the same steps on a
    `Cache` object and are proved to agree with those functions.
  - The upstream call is an input: a reply (its text, and what `JSON.parse` makes of the
    trimmed text), a reply without content, an error response with a status, no
    response, or any other failure.
- **The serverless tone detector** (`api/detect-tone.js`). It covers:
  - the OPTIONS/POST/body decision;
  - the check that a parsed reply has `currentTone` and an array of `suggestions`;
  - the keyword fallback classifier. It searches the lower-cased reply for keywords in a
    fixed priority order, so "informal" is read as Casual although it contains "formal".
- **The editor's statistics line.** It shows the character count, the word count
  `value.trim() ? value.trim().split(/\s+/).length : 0` and the Empty/Short/Medium/Long
  length bucket. The word count is proved equal to an independent count of maximal
  non-whitespace runs.

String primitives of JavaScript are modelled in `AsciiText`: `trim`, the `\s` class, `toLowerCase` and
`includes`, all over ASCII. JSON values and their JavaScript truthiness are modelled in
`JsonValue`.

Two properties of the server's keys are worth knowing. The rewrite key is plain
concatenation, so distinct requests can share a key: ("a-b", "c", "d") and
("a", "b-c", "d") do (`RewriteKeysCollide`). Detection and rewriting also share one cache,
so a detection key can equal a rewrite key (`DetectAndRewriteKeysCollide`), and a stored
detection analysis is then served as a rewrite (`DetectionServedAsRewrite`). Keys still
separate requests that differ in a single field.

SET_TEXT pushes the old present onto the past unconditionally, even when the new text
equals it. Setting the same text twice therefore leaves two equal snapshots on top of
each other (`ToneHistory.SetTextMayDuplicate`).

## Model

| member | source | states |
|---|---|---|
| AsciiText.Trim | backend/server.js:33 | `trim` yields the empty string exactly when the text is all whitespace; otherwise it starts and ends with non-whitespace and is no longer than the input |
| AsciiText.TrimParts | backend/server.js:33 | the input is some whitespace, then the trimmed text, then some whitespace: trimming removes nothing else |
| AsciiText.TrimIdempotent | frontend/src/components/TextEditor.jsx:42 | trimming twice is trimming once |
| AsciiText.ToLower | api/detect-tone.js:90 | lowering keeps the length, maps every character by ASCII lowering and leaves no upper-case letter |
| AsciiText.ToLowerIdempotent | api/detect-tone.js:90 | lowering twice is lowering once |
| AsciiText.ToLowerSlice | api/detect-tone.js:90 | lowering commutes with taking a slice |
| AsciiText.ContainsPiece | api/detect-tone.js:95-97 | a text that contains a word contains every piece of that word |
| JsonValue.Truthy | backend/server.js:44 | JavaScript truthiness: `null`, `false`, `0` and `""` are falsy; every other value, arrays and objects included, is truthy |
| JsonValue.Member | api/detect-tone.js:82 | a member is found exactly when the value is an object that has that field, and it is that field's value |
| ToneApi.AnalysisJson | backend/server.js:100-123 | an analysis is sent as a truthy object with exactly the members `currentTone` (truthy) and `suggestions` (an array with one item per suggestion) |
| ToneApi.AnalysisRoundTrip | backend/server.js:100-123 | reading the sent document back gives the analysis: formality, emotion, description and every suggestion in order |
| ToneApi.SuggestionsRoundTrip | backend/server.js:106-122 | reading the sent suggestion list back gives the suggestions in order |
| ToneApi.LabelsRoundTrip | backend/server.js:101-103 | each formality and emotion label is read back as itself |
| ToneApi.FailureResponse | backend/server.js:137-146 | an error response passes its status through, and is the only failure with "Mistral AI API error"; no response, and only that, gives the network message; anything else is exactly 500 "Internal server error" |
| ResponseCache.Lookup | backend/server.js:43 | `get` answers exactly when the key is stored and its time-to-live has not run out, and then with the stored value |
| ResponseCache.Store | backend/server.js:127 | `set` adds the key to the stored keys and removes none |
| ResponseCache.LookupWithinTtl | backend/server.js:16 | a stored value is returned for the whole 300 s after it was stored |
| ResponseCache.LookupAfterTtl | backend/server.js:16 | with a non-zero time-to-live, the value is gone after it, whatever was stored before |
| ResponseCache.ZeroTtlNeverExpires | backend/server.js:16 | a time-to-live of 0 means a stored value is returned at any later time |
| ResponseCache.ServerCacheKeepsFiveMinutes | backend/server.js:16 | with the server's 300 s setting a value is returned 300000 ms after it was stored and is gone 1 ms later |
| ResponseCache.StoreIsolatesKeys | backend/server.js:127 | storing under one key leaves every other key's answer unchanged |
| ResponseCache.OverwriteRestartsClock | backend/server.js:16 | overwriting a key restarts its time-to-live |
| ResponseCache.Cache.constructor | backend/server.js:16 | a new cache is empty and has the given time-to-live |
| ResponseCache.Cache.Get | backend/server.js:43 | `get` answers exactly while the key's entry is live, and then with the stored value |
| ResponseCache.Cache.Set | backend/server.js:127 | `set` replaces the cache contents by their `Store` update |
| ToneServer.DetectTextRejected | backend/server.js:33 | the detection check `!text \|\| text.trim().length === 0` |
| ToneServer.RewriteRejected | backend/server.js:155 | the rewrite check `!text \|\| !formality \|\| !emotion`, with no trimming |
| ToneServer.DetectTextRejectedIffBlank | backend/server.js:33-37 | detection refuses a text exactly when it is missing or all whitespace |
| ToneServer.RewriteAcceptsBlankText | backend/server.js:155 | rewriting does not trim: a whitespace-only text passes its check while detection refuses it |
| ToneServer.DetectKey | backend/server.js:40 | the detection key is "detect-" followed by the text |
| ToneServer.DetectKeyInjective | backend/server.js:40 | two detection keys are equal exactly when the texts are |
| ToneServer.RewriteKey | backend/server.js:162 | the rewrite key starts with the text, ends with the emotion, and is two characters longer than the three fields together |
| ToneServer.RewriteKeySeparatesEmotion | backend/server.js:162 | requests that differ only in emotion get different keys, and equal ones equal keys |
| ToneServer.RewriteKeySeparatesFormality | backend/server.js:162 | requests that differ only in formality get different keys, and equal ones equal keys |
| ToneServer.RewriteKeySeparatesText | backend/server.js:162 | requests that differ only in text get different keys, and equal ones equal keys |
| ToneServer.RewriteKeysCollide | backend/server.js:162 | a dash moved between text and formality gives the same key |
| ToneServer.DetectAndRewriteKeysCollide | backend/server.js:40 | a detection key can equal a rewrite key in the shared cache |
| ToneServer.DetectTone | backend/server.js:29-148 | a detection that does not consult the upstream or that fails leaves the cache as it was; any change is storing the served analysis under the detection key; `cached` is true exactly when the upstream was not consulted |
| ToneServer.DetectRejectsBlankText | backend/server.js:31-37 | a missing or blank text gets 400 "Text is required for tone detection", with no lookup, no store and no upstream call |
| ToneServer.DetectServesLiveEntry | backend/server.js:43-49 | a live truthy entry is served with `cached: true`, the cache unchanged and no upstream call |
| ToneServer.DetectMissConsultsUpstream | backend/server.js:76-132 | on a miss (no entry, or a falsy one) the upstream is consulted; a reply is stored under the detection key and served with `cached: false`, as the parsed value when it parses and as the fallback otherwise; a failure is mapped and nothing is stored |
| ToneServer.DetectServesParsedReply | backend/server.js:95-96 | on a miss, a reply that parses is served uncached and stored under the detection key exactly as parsed, whatever its shape |
| ToneServer.DetectFallsBackOnParseFailure | backend/server.js:92-124 | a reply that does not parse, or has no content, yields the fixed fallback analysis, which is both served and stored |
| ToneServer.FallbackAnalysisShape | backend/server.js:100-123 | the fallback reads Neutral/Neutral and suggests Casual/Friendly, Formal/Polite, Neutral/Friendly in that order |
| ToneServer.RepeatDetectWithinTtlIsCached | backend/server.js:127-132 | after a computed truthy analysis, the same request within the time-to-live is a hit that returns it with `cached: true` |
| ToneServer.DetectAfterTtlRecomputes | backend/server.js:43-44 | with a non-zero time-to-live, an entry older than it is a miss, and the upstream is consulted again |
| ToneServer.AdjustTone | backend/server.js:151-224 | a rewrite that does not consult the upstream or that fails leaves the cache as it was; any change is storing the served text under the rewrite key; `cached` is true exactly when the upstream was not consulted |
| ToneServer.AdjustRejectsMissingField | backend/server.js:153-159 | a missing or empty text, formality or emotion gets 400 "Missing required fields: text, formality, emotion" before any lookup |
| ToneServer.AdjustServesLiveEntry | backend/server.js:165-171 | a live truthy entry under the rewrite key is served with `cached: true`, whatever value it holds, with the cache unchanged and no upstream call |
| ToneServer.AdjustMissConsultsUpstream | backend/server.js:165-209 | on a miss (no entry, or a falsy one) the upstream is consulted; a reply is trimmed, stored under the rewrite key and served with `cached: false`; a failure is mapped and nothing is stored |
| ToneServer.AdjustMissStoresTrimmedReply | backend/server.js:201-209 | a miss, with no entry or a falsy one, stores the trimmed reply under the rewrite key and serves it with `cached: false` |
| ToneServer.BlankRewriteIsNeverServedFromCache | backend/server.js:165-171 | a blank rewritten text is stored but is falsy, so the same request straight afterwards consults the upstream again |
| ToneServer.RepeatAdjustWithinTtlIsCached | backend/server.js:165-209 | after a computed truthy rewrite, any later identical request within the time-to-live is a hit that returns the same text with `cached: true` and no upstream call |
| ToneServer.RepeatRewriteOfReplyIsCached | backend/server.js:165-209 | a non-blank reply, once stored, is served trimmed with `cached: true` to identical requests for the whole time-to-live |
| ToneServer.RewriteTwiceIsCached | backend/server.js:165-209 | rewriting "Hi" as Formal/Polite answers 200 with `cached: false`, and the same request straight afterwards gets the same text with `cached: true` |
| ToneServer.DetectionServedAsRewrite | backend/server.js:162-171 | a detection for "a-b" stored in the shared cache is served, within the time-to-live, as the rewrite of "detect" with formality "a" and emotion "b" |
| ToneServer.HandleDetectTone | backend/server.js:29-148 | the detection handler's response, new cache contents and use of the upstream are those `DetectTone` states |
| ToneServer.HandleAdjustTone | backend/server.js:151-224 | the rewrite handler's response, new cache contents and use of the upstream are those `AdjustTone` states |
| AsciiText.Contains | api/detect-tone.js:95-105 | `includes`: the word occurs at some position of the text |
| DetectFunction.TextRejected | api/detect-tone.js:21 | the body check `!text \|\| text.trim().length === 0` |
| DetectFunction.WellShaped | api/detect-tone.js:82 | the structure check: `currentTone` present and truthy, `suggestions` present, truthy and an array |
| DetectFunction.Description | api/detect-tone.js:111 | the description template with the lower-cased labels |
| DetectFunction.DetectFormality | api/detect-tone.js:91-99 | Casual exactly when the lower-cased text contains "casual", "informal" or "relaxed"; Formal exactly when it contains none of those but "formal", "professional" or "business"; Neutral otherwise |
| DetectFunction.DetectEmotion | api/detect-tone.js:100-105 | Friendly exactly when the lower-cased text contains "friendly", "warm" or "approachable"; Polite exactly when none of those but "polite", "respectful" or "courteous"; Neutral otherwise |
| DetectFunction.KeywordAnalysis | api/detect-tone.js:107-130 | the fallback carries the detected labels, the description built from them, and the three fixed suggestions |
| DetectFunction.Handle | api/detect-tone.js:3-152 | OPTIONS gives 200 with no body; any other non-POST gives 405; a missing or blank text gives 400; every analysis is uncached and needs a reply; an upstream failure is mapped as on the server |
| DetectFunction.RefusalsPrecedeUpstream | api/detect-tone.js:10-25 | OPTIONS, other methods and blank texts are answered the same whatever the upstream would say |
| DetectFunction.WellShapedReplyIsPassedOn | api/detect-tone.js:78-84 | a parsed reply with a truthy `currentTone` and an array of `suggestions` is served as it is |
| DetectFunction.IllShapedReplyIsClassified | api/detect-tone.js:82-130 | any other reply, parsed or not, is answered with the keyword analysis of its content |
| DetectFunction.NonObjectsAreIllShaped | api/detect-tone.js:82 | a parsed value that is not an object never passes the structure check |
| DetectFunction.KeywordAnalysisIsWellShaped | api/detect-tone.js:107-130 | the keyword fallback itself would pass the structure check |
| DetectFunction.UpstreamFailuresAreMapped | api/detect-tone.js:138-151 | a valid POST whose upstream fails gets the status and message of the error mapping |
| DetectFunction.InformalIsNeverFormal | api/detect-tone.js:95-99 | a text containing "informal" in any case is Casual, never Formal |
| DetectFunction.KeywordMatchIgnoresCase | api/detect-tone.js:90 | a keyword found in the original text, in any case, is found in the lower-cased text |
| DetectFunction.ClassificationIgnoresCase | api/detect-tone.js:90-105 | the labels of a text and of its lower-cased form are equal |
| DetectFunction.UpperCaseExample | api/detect-tone.js:90-105 | "CASUAL and WARM" is classified Casual/Friendly |
| DetectFunction.NoKeywordExample | api/detect-tone.js:91-92 | a text without keywords is Neutral/Neutral |
| DetectFunction.DescriptionExample | api/detect-tone.js:111 | Casual/Friendly is described as "AI detected casual formality with friendly emotion." |
| ToneHistory.InitialState | frontend/src/hooks/useToneReducer.js:15-22 | the initial state: the default greeting, empty stacks, not loading, no error, no tone |
| ToneHistory.Timeline | frontend/src/App.jsx:31 | the persisted list `[...past, present, ...future]`: one longer than the two stacks, with the present at the index after the past |
| ToneHistory.Reduce | frontend/src/hooks/useToneReducer.js:25-122 | UNDO and REDO keep the timeline `past ++ [present] ++ future`; flag actions and unknown actions keep past, present, future and lastTone; only APPLY_TONE_CHANGE and RESET change lastTone; only SET_LOADING and SET_ERROR change loading |
| ToneHistory.InitialStateIsEmptyHistory | frontend/src/hooks/useToneReducer.js:15-22 | the initial state holds only the default text, with nothing to undo or redo, not loading, no error and no tone |
| ToneHistory.SetTextEffect | frontend/src/hooks/useToneReducer.js:28-34 | SET_TEXT pushes the old present, installs the payload, empties the future, clears the error and keeps loading and lastTone |
| ToneHistory.ApplyToneChangeIsSetTextWithTone | frontend/src/hooks/useToneReducer.js:36-47 | APPLY_TONE_CHANGE is SET_TEXT of the new text plus recording the requested tone |
| ToneHistory.UndoRevertsEdit | frontend/src/hooks/useToneReducer.js:49-61 | undoing an edit restores the text and past before it, with the edit as the only redo step |
| ToneHistory.EditAfterUndoDiscardsFuture | frontend/src/hooks/useToneReducer.js:28-34 | an edit made after an undo empties the redo branch, so REDO then does nothing |
| ToneHistory.SetTextMayDuplicate | frontend/src/hooks/useToneReducer.js:30 | setting the present text again puts a copy of it on top of the past |
| ToneHistory.UndoEffect | frontend/src/hooks/useToneReducer.js:49-61 | UNDO is the identity on an empty past; otherwise the last past entry becomes present and the old present heads the future |
| ToneHistory.RedoEffect | frontend/src/hooks/useToneReducer.js:63-75 | REDO is the identity on an empty future; otherwise the future's head becomes present and the old present ends the past |
| ToneHistory.UndoThenRedo | frontend/src/hooks/useToneReducer.js:49-75 | REDO after UNDO restores the state exactly, except that the error is cleared |
| ToneHistory.RedoThenUndo | frontend/src/hooks/useToneReducer.js:49-75 | UNDO after REDO restores the state exactly, except that the error is cleared |
| ToneHistory.NavigationPreservesTimeline | frontend/src/hooks/useToneReducer.js:49-75 | any sequence of UNDO and REDO keeps the timeline, its length and lastTone |
| ToneHistory.UndoMany | frontend/src/hooks/useToneReducer.js:49-61 | k undos move the last k past entries, in order, to the front of the future |
| ToneHistory.UndoManyThenRedoMany | frontend/src/hooks/useToneReducer.js:49-75 | k undos followed by k redos restore the state, except that the error is cleared |
| ToneHistory.ResetEffect | frontend/src/hooks/useToneReducer.js:77-87 | RESET makes the oldest past entry, or "" without one, the only snapshot, and clears lastTone and the error |
| ToneHistory.ResetIsFullUndo | frontend/src/hooks/useToneReducer.js:77-87 | the text RESET returns to is the one reached by undoing every step |
| ToneHistory.ResetExample | frontend/src/hooks/useToneReducer.js:77-87 | after edits "A", "B", "C", RESET gives "A" with empty stacks |
| ToneHistory.FlagActionsEffect | frontend/src/hooks/useToneReducer.js:89-121 | SET_LOADING, SET_ERROR and CLEAR_ERROR change only their flags, SET_ERROR also stops loading, and an unknown action changes nothing |
| ToneHistory.LoadHistoryEffect | frontend/src/hooks/useToneReducer.js:108-118 | LOAD_HISTORY is the identity on an empty list; otherwise it splits the list at its floor midpoint, so the new timeline is the list |
| ToneHistory.PersistedTimelineReloads | frontend/src/App.jsx:31 | loading the timeline that is persisted, into any state, restores that timeline |
| ToneHistory.BalancedTimelineReloadsExactly | frontend/src/hooks/useToneReducer.js:111-116 | with as many snapshots behind as ahead, reloading also restores past, present and future |
| ToneHistory.ReloadMovesPresent | frontend/src/hooks/useToneReducer.js:111-116 | reloading does not keep the position in general: a state at its newest snapshot reloads one step back |
| ToneHistory.LoadHistoryExample | frontend/src/hooks/useToneReducer.js:108-118 | five snapshots load as two behind, one current and two ahead |
| TextStats.SplitOnSpaceRuns | frontend/src/components/TextEditor.jsx:42 | `split(/\s+/)` always yields at least one piece |
| TextStats.WordCount | frontend/src/components/TextEditor.jsx:42 | the word count is 0 exactly when the text is all whitespace |
| TextStats.SplitCountsWords | frontend/src/components/TextEditor.jsx:42 | on a trimmed non-empty text, the split has one piece per word start |
| TextStats.SplitPiecesAreWords | frontend/src/components/TextEditor.jsx:42 | on a trimmed non-empty text, every piece is a non-empty run of non-whitespace |
| TextStats.SurroundingSpaceAddsNoWords | frontend/src/components/TextEditor.jsx:42 | whitespace around a text adds no words |
| TextStats.WordCountCountsWords | frontend/src/components/TextEditor.jsx:42 | the displayed word count equals the number of maximal non-whitespace runs in the untrimmed text |
| TextStats.WordCountExample | frontend/src/components/TextEditor.jsx:42 | " hi \t yo\n" has two words |
| TextStats.StatusOf | frontend/src/components/TextEditor.jsx:55-58 | Empty exactly at length 0, Short below 50, Medium from 50 below 200, Long from 200 |
| TextStats.StatusLabel | frontend/src/components/TextEditor.jsx:56-58 | the label expression over `value.length` |
| TextStats.IndicatorClass | frontend/src/components/TextEditor.jsx:51-53 | the dot colour expression over `value.length` |
| TextStats.LabelAndIndicatorAgree | frontend/src/components/TextEditor.jsx:50-58 | the label and the dot colour are chosen by the same bucket |
| TextStats.BucketsAreDistinguishable | frontend/src/components/TextEditor.jsx:50-58 | different buckets have different labels and different colours |
| TextStats.EditorStats | frontend/src/components/TextEditor.jsx:35-58 | the line shows the length, a word count that is 0 exactly for a blank text and never exceeds the length, and the label and colour of the length's bucket |

## Left out

- HTTP transport is left out: Express and serverless request/response objects, CORS headers, the axios calls and the prompt strings. The upstream call is an input of the handlers.
- The `details` payload of error responses is not modelled; only the status and the message are.
- Logging is left out: the `console.warn` and `console.error` calls (backend/server.js:99, :135, :211; api/detect-tone.js:88, :139) have no effect on responses or the cache.
- Request body fields are modelled as absent or strings; other JSON types in the body are not. So the model does not capture these behaviours:
  - on the server, a truthy non-string `text` makes `text.trim()` throw inside the try block, so detection answers 500 "Internal server error" instead of 400;
  - in api/detect-tone.js the same throw happens before the try block and is not caught by the handler;
  - a request with no body object at all is not modelled: `const { text } = req.body` (api/detect-tone.js:19) throws before the try block, whereas `None` models a body object that lacks the field;
  - /api/tone puts non-string fields into its key by string interpolation (`[object Object]`, numbers as digits).
- node-cache internals are not modelled: its periodic reaping of expired keys, its statistics and memory bounds. `Cache.Get` reads the entry and applies the expiry rule without deleting the entry.
- Concurrent requests against the shared cache are not modelled: each handler runs as one atomic step.
- One clock reading serves a whole request: the lookup and the store both use the handler's `now`. The server stores only after awaiting the upstream call, so in reality the entry's clock starts later than the lookup.
- `JSON.parse` is not modelled. Whether the trimmed reply parses, and to what, is part of the upstream input.
- JavaScript key order in response objects and the `...spread` of the analysis next to `cached` are not modelled. A response carries the analysis value and the flag side by side.
- String primitives cover ASCII only: `trim`, `\s` and `toLowerCase` treat only ASCII whitespace and letters. Lengths count characters, not UTF-16 code units.
- The startup `process.exit` on a missing API key is not modelled: it is process control, not request logic.
- React rendering, effects and local-storage plumbing in frontend/src/App.jsx are not modelled, except for the persisted timeline expression at line 31.
- api/tone.js and api/health.js are not part of this model. They route a single upstream call and have no logic beyond what api/detect-tone.js shows.
- Colour tables in frontend/src/components/TonePicker.jsx and frontend/src/components/ToneDetection.jsx, frontend/src/Toneform.jsx and frontend/src/lib/utils.js are not part of this model. They are presentation and thin library wrappers.
- The fetch logic of frontend/src/components/ToneDetection.jsx is not part of this model: it is I/O.
